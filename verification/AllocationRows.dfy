/** The engine's result: the allocation as rows in order. */
module AllocationRows {
  import opened Basics
  import opened Sums
  import opened Allocation
  import opened AllocationTheorems
  import opened AllocationFigures

  // ---------------------------------------------------------------- the order of rows

  /** By hour, then cluster, then namespace. */
  predicate RowBelow(a: NamespaceCost, b: NamespaceCost) {
    if a.bucket != b.bucket then a.bucket < b.bucket
    else if a.cluster != b.cluster then TextBelow(a.cluster, b.cluster)
    else TextBelow(a.namespaceUid, b.namespaceUid)
  }

  lemma RowOrder(a: NamespaceCost, b: NamespaceCost, c: NamespaceCost)
    ensures RowBelow(a, b) || RowBelow(b, a)
    ensures RowBelow(a, b) && RowBelow(b, c) ==> RowBelow(a, c)
  {
    TextOrder(a.cluster, b.cluster, c.cluster);
    TextOrder(a.namespaceUid, b.namespaceUid, c.namespaceUid);
  }

  ghost predicate InOrder(rows: seq<NamespaceCost>) {
    forall i, j :: 0 <= i < j < |rows| ==> RowBelow(rows[i], rows[j])
  }

  /** No row comes before one of an earlier hour, in one hour before one of an earlier cluster, and in one
      cluster and hour before one of an earlier namespace. */
  ghost predicate InRowOrder(rows: seq<NamespaceCost>) {
    forall i, j :: 0 <= i < j < |rows| ==>
                     && rows[i].bucket <= rows[j].bucket
                     && (rows[i].bucket == rows[j].bucket ==> TextBelow(rows[i].cluster, rows[j].cluster))
                     && (rows[i].bucket == rows[j].bucket && rows[i].cluster == rows[j].cluster ==>
                           TextBelow(rows[i].namespaceUid, rows[j].namespaceUid))
  }

  lemma OrderedByFields(rows: seq<NamespaceCost>)
    requires InOrder(rows)
    ensures InRowOrder(rows)
  {
    forall i | 0 <= i < |rows| ensures TextBelow(rows[i].cluster, rows[i].cluster) {
      TextOrder(rows[i].cluster, rows[i].cluster, "");
    }
  }

  method Insert(rows: seq<NamespaceCost>, x: NamespaceCost) returns (more: seq<NamespaceCost>)
    requires InOrder(rows)
    ensures InOrder(more) && multiset(more) == multiset(rows) + multiset{x}
  {
    var k := 0;
    while k < |rows| && RowBelow(rows[k], x)
      invariant 0 <= k <= |rows|
      invariant forall j :: 0 <= j < k ==> RowBelow(rows[j], x)
    {
      k := k + 1;
    }
    more := rows[..k] + [x] + rows[k..];
    InsertedInOrder(rows, k, x);
    assert rows == rows[..k] + rows[k..];
  }

  lemma InsertedInOrder(rows: seq<NamespaceCost>, k: nat, x: NamespaceCost)
    requires InOrder(rows) && k <= |rows| && (k < |rows| ==> !RowBelow(rows[k], x))
    requires forall j :: 0 <= j < k ==> RowBelow(rows[j], x)
    ensures InOrder(rows[..k] + [x] + rows[k..])
  {
    forall j | k <= j < |rows| ensures RowBelow(x, rows[j]) {
      RowOrder(x, rows[k], rows[j]);
    }
  }

  // ---------------------------------------------------------------- the whole computation

  function RowKey(row: NamespaceCost): NamespaceHour {
    NamespaceHour(row.tenant, row.cluster, row.namespaceUid, row.bucket)
  }

  /** Every item filed under its own key. */
  ghost predicate Filed(items: map<NamespaceHour, NamespaceCost>) {
    forall n :: n in items ==> RowKey(items[n]) == n
  }

  /** `rows` lists the items once each, in order. */
  ghost predicate Lists(rows: seq<NamespaceCost>, items: map<NamespaceHour, NamespaceCost>) {
    && InOrder(rows)
    && forall row :: multiset(rows)[row] == if RowKey(row) in items && items[RowKey(row)] == row then 1 else 0
  }

  /** `rows` lists what is not left. */
  ghost predicate Sorted(rows: seq<NamespaceCost>, items: map<NamespaceHour, NamespaceCost>,
                         left: map<NamespaceHour, NamespaceCost>)
  {
    && left.Keys <= items.Keys && (forall n :: n in left ==> left[n] == items[n])
    && Lists(rows, items - left.Keys)
  }

  method SortRows(items: map<NamespaceHour, NamespaceCost>) returns (rows: seq<NamespaceCost>)
    requires Filed(items)
    ensures Lists(rows, items)
  {
    rows := [];
    var left := items;
    assert items - left.Keys == map[];
    while left != map[]
      invariant Sorted(rows, items, left)
      decreases |left|
    {
      var n :| n in left;
      rows := SortRow(items, rows, left, n);
      left := left - {n};
    }
    assert items - left.Keys == items;
  }

  method SortRow(ghost items: map<NamespaceHour, NamespaceCost>, rows: seq<NamespaceCost>,
                 left: map<NamespaceHour, NamespaceCost>, n: NamespaceHour) returns (more: seq<NamespaceCost>)
    requires Filed(items) && Sorted(rows, items, left) && n in left
    ensures Sorted(more, items, left - {n})
  {
    ListsMore(rows, items, left.Keys, n);
    more := Insert(rows, left[n]);
    assert (left - {n}).Keys == left.Keys - {n};
  }

  lemma ListsMore(rows: seq<NamespaceCost>, items: map<NamespaceHour, NamespaceCost>, left: set<NamespaceHour>,
                  n: NamespaceHour)
    requires Filed(items) && left <= items.Keys && n in left && Lists(rows, items - left)
    ensures forall more :: InOrder(more) && multiset(more) == multiset(rows) + multiset{items[n]} ==>
                             Lists(more, items - (left - {n}))
  {
  }

  // ---------------------------------------------------------------- prices and totals

  /** A positive node price and no negative price. */
  predicate Usable(given: Options) {
    given.node > 0.0 && given.controlPlane >= 0.0 && given.network >= 0.0
  }

  /** A usable price is kept; each of the others gets its own default. */
  lemma PricesExactly(given: Options)
    ensures var o := Normalize(given);
            && Usable(o) && (Usable(given) <==> o == given)
            && o.node == (if given.node > 0.0 then given.node else 0.10)
            && o.controlPlane == (if given.controlPlane >= 0.0 then given.controlPlane else 0.05)
            && o.network == (if given.network >= 0.0 then given.network else 0.01)
  {
  }

  function CostOf(row: NamespaceCost): real { row.allocatedCost }

  function RowTotal(rows: seq<NamespaceCost>): real {
    if rows == [] then 0.0 else RowTotal(rows[..|rows| - 1]) + CostOf(rows[|rows| - 1])
  }

  lemma {:induction false} RowTotalIsSum(rows: seq<NamespaceCost>, ks: set<NamespaceHour>)
    requires forall row :: row in rows ==> RowKey(row) in ks
    ensures RowTotal(rows) == SumIn(rows, RowKey, ks, CostOf)
  {
    if rows != [] {
      assert rows == rows[..|rows| - 1] + [rows[|rows| - 1]];
      RowTotalIsSum(rows[..|rows| - 1], ks);
    }
  }

  lemma ListedRow(rows: seq<NamespaceCost>, items: map<NamespaceHour, NamespaceCost>, row: NamespaceCost)
    requires Lists(rows, items) && row in rows
    ensures RowKey(row) in items && items[RowKey(row)] == row
  {
    assert multiset(rows)[row] > 0;
  }

  lemma ListedTotal(rows: seq<NamespaceCost>, items: map<NamespaceHour, NamespaceCost>)
    requires Lists(rows, items) && Filed(items)
    ensures RowTotal(rows) == Total(items.Keys, AllocatedBy(items))
  {
    forall row | row in rows ensures RowKey(row) in items && items[RowKey(row)] == row { ListedRow(rows, items, row); }
    RowTotalIsSum(rows, items.Keys);
    forall n | n in items.Keys ensures AllocatedBy(items)(n) == SumIn(rows, RowKey, {n}, CostOf) {
      assert multiset(rows)[items[n]] == 1;
      SumInOnce(rows, RowKey, n, CostOf, items[n]);
    }
    Regroup(rows, RowKey, items.Keys, CostOf, AllocatedBy(items));
  }

  /** Node price times node-hours, control-plane price times cluster-hours and network price times GiB. */
  predicate IsBill(total: real, nodes: set<NodeHour>, clusters: set<ClusterHour>, bytes: nat, o: Options) {
    total == |nodes| as real * o.node + |clusters| as real * o.controlPlane + Price(o.network, GiB(bytes))
  }

  /** The bill for what the requests keep busy. */
  predicate AddsUp(total: real, rs: seq<Request>, o: Options) {
    IsBill(total, NodeHoursBilled(rs), ClusterHoursBilled(rs), BytesBilled(rs), o)
  }

  ghost predicate ListsAllocation(rows: seq<NamespaceCost>, rs: seq<Request>, o: Options) {
    exists items :: IsAllocation(items, rs, o) && Lists(rows, items)
  }

  /** Every billed request has a row, and every row billed requests or idle capacity. */
  ghost predicate Matches(rows: seq<NamespaceCost>, rs: seq<Request>) {
    && (forall r :: r in rs && Billed(r) ==> exists row :: row in rows && SameNamespace(row, r))
    && forall row :: row in rows ==> HasCause(row, rs)
  }

  ghost predicate HasCause(row: NamespaceCost, rs: seq<Request>) {
    exists r :: && r in rs && Billed(r) && r.tenant == row.tenant && r.cluster == row.cluster && r.bucket == row.bucket
                && row.namespaceUid in {r.namespaceUid, "__idle__"}
  }

  /** What every request is charged, and every row with the charges of its own requests. */
  ghost predicate Charges(rows: seq<NamespaceCost>, rs: seq<Request>, o: Options) {
    && (forall r :: r in rs ==>
          IsCharge(rs, o, r, Weight(rs, r), Direct(rs, o, r), Network(o, r), Control(rs, o, r)))
    && forall row :: row in rows ==> SumsUp(row, rs, o)
  }

  /** The rows list an allocation under the prices, in order, and add up to them. */
  ghost predicate Allocates(rows: seq<NamespaceCost>, rs: seq<Request>, o: Options) {
    && ListsAllocation(rows, rs, o) && Matches(rows, rs) && Charges(rows, rs, o)
    && AddsUp(RowTotal(rows), rs, o) && InRowOrder(rows)
  }

  lemma RowsMatch(rows: seq<NamespaceCost>, items: map<NamespaceHour, NamespaceCost>, rs: seq<Request>, o: Options)
    requires IsAllocation(items, rs, o) && Lists(rows, items) && Filed(items)
    ensures Matches(rows, rs)
  {
    forall r | r in rs && Billed(r) ensures exists row :: row in rows && SameNamespace(row, r) {
      var n := NamespaceOf(r);
      assert n in NamespaceHours(rs) && RowKey(items[n]) == n && multiset(rows)[items[n]] == 1;
      assert SameNamespace(items[n], r);
    }
    forall row | row in rows ensures HasCause(row, rs) {
      ListedRow(rows, items, row);
      RowHasCause(items, rs, o, RowKey(row));
    }
  }

  lemma RowHasCause(items: map<NamespaceHour, NamespaceCost>, rs: seq<Request>, o: Options, n: NamespaceHour)
    requires IsAllocation(items, rs, o) && Filed(items) && n in items
    ensures HasCause(items[n], rs)
  {
    if n in NamespaceHours(rs) {
      var r :| r in rs && Counted(r) && NamespaceOf(r) == n;
      assert Billed(r);
    } else {
      var k :| k in NodeHours(rs) && IdleOf(k) == n;
      var r :| r in rs && Counted(r) && NodeOf(r) == k;
      assert Billed(r);
    }
  }

  lemma RowsCharge(rows: seq<NamespaceCost>, items: map<NamespaceHour, NamespaceCost>, rs: seq<Request>, o: Options)
    requires IsAllocation(items, rs, o) && Lists(rows, items)
    ensures Charges(rows, rs, o)
  {
    forall r | r in rs
      ensures IsCharge(rs, o, r, Weight(rs, r), Direct(rs, o, r), Network(o, r), Control(rs, o, r))
    {
      ChargeExactly(rs, o, r);
    }
    forall row | row in rows ensures SumsUp(row, rs, o) {
      ListedRow(rows, items, row);
      RowSumsUp(items, rs, o, RowKey(row));
    }
  }

  lemma TotalAddsUp(items: map<NamespaceHour, NamespaceCost>, rs: seq<Request>, o: Options, total: real)
    requires IsAllocation(items, rs, o) && total == Total(items.Keys, AllocatedBy(items))
    ensures AddsUp(total, rs, o)
  {
    TotalIsBill(items, rs, o, total);
    BilledHoursExactly(rs);
    BilledBytesExactly(rs);
  }

  lemma TotalIsBill(items: map<NamespaceHour, NamespaceCost>, rs: seq<Request>, o: Options, total: real)
    requires IsAllocation(items, rs, o) && total == Total(items.Keys, AllocatedBy(items))
    ensures IsBill(total, NodeHours(rs), ClusterHours(rs), BilledBytes(rs), o)
  {
    CostIsConserved(items, rs, o);
  }

  lemma ListedAllocates(rows: seq<NamespaceCost>, items: map<NamespaceHour, NamespaceCost>, rs: seq<Request>,
                        o: Options)
    requires IsAllocation(items, rs, o) && Lists(rows, items)
    ensures Allocates(rows, rs, o)
  {
    AllocationIsFiled(items, rs, o);
    ListedTotal(rows, items);
    OrderedByFields(rows);
    RowsMatch(rows, items, rs, o);
    RowsCharge(rows, items, rs, o);
    TotalAddsUp(items, rs, o, RowTotal(rows));
  }

  /** The three loops and the final sort: usable prices are the ones charged. */
  method AllocateCosts(rs: seq<Request>, given: Options) returns (rows: seq<NamespaceCost>)
    ensures Usable(given) ==> Allocates(rows, rs, given)
    ensures Allocates(rows, rs, Options(if given.node > 0.0 then given.node else 0.10,
                                        if given.controlPlane >= 0.0 then given.controlPlane else 0.05,
                                        if given.network >= 0.0 then given.network else 0.01))
  {
    var o := Normalize(given);
    PricesExactly(given);
    var totals, capacity, clusters := Tally(rs);
    var byNamespace := ChargeAll(rs, o, totals, capacity, clusters);
    NothingIdleYet(byNamespace, rs, o);
    byNamespace := AddIdleCapacity(byNamespace, rs, o, totals, capacity);
    AllocationIsFiled(byNamespace, rs, o);
    rows := SortRows(byNamespace);
    ListedAllocates(rows, byNamespace, rs, o);
  }

  lemma AllocationIsFiled(items: map<NamespaceHour, NamespaceCost>, rs: seq<Request>, o: Options)
    requires IsAllocation(items, rs, o)
    ensures Filed(items)
  {
    forall n | n in items ensures RowKey(items[n]) == n {
      assert Carries(items[n], n, rs, rs, o, IdleAt(rs, o, NodeHours(rs), n));
    }
  }
}
