/** The cost allocation engine: node, control-plane and network cost split over namespaces by
    CPU request, with unrequested node capacity shown as idle. Money is exact. */
module Allocation {
  import opened Basics
  import opened Sums

  const IDLE := "__idle__"

  datatype Request = Request(
    tenant: string, cluster: string, node: string, namespaceUid: string, namespaceName: string,
    bucket: int, cpu: nat, bytes: nat, allocatable: nat)

  datatype NodeHour = NodeHour(tenant: string, cluster: string, node: string, bucket: int)

  datatype ClusterHour = ClusterHour(tenant: string, cluster: string, bucket: int)

  datatype NamespaceHour = NamespaceHour(tenant: string, cluster: string, namespaceUid: string, bucket: int)

  datatype Options = Options(node: real, controlPlane: real, network: real)

  datatype NamespaceCost = NamespaceCost(
    tenant: string, cluster: string, namespaceUid: string, namespaceName: string, bucket: int,
    cpu: nat, bytes: nat, weight: real, direct: real, idle: real, network: real, control: real,
    system: real, allocatedCost: real)

  function NodeOf(r: Request): NodeHour { NodeHour(r.tenant, r.cluster, r.node, r.bucket) }

  function ClusterOf(r: Request): ClusterHour { ClusterHour(r.tenant, r.cluster, r.bucket) }

  function NamespaceOf(r: Request): NamespaceHour { NamespaceHour(r.tenant, r.cluster, r.namespaceUid, r.bucket) }

  /** Where the idle capacity of a node-hour is booked. */
  function IdleOf(k: NodeHour): NamespaceHour { NamespaceHour(k.tenant, k.cluster, IDLE, k.bucket) }

  function Normalize(o: Options): Options {
    Options(if o.node <= 0.0 then 0.10 else o.node,
            if o.controlPlane < 0.0 then 0.05 else o.controlPlane,
            if o.network < 0.0 then 0.01 else o.network)
  }

  predicate SystemName(name: string) { name in {"kube-system", "kube-public", "kube-node-lease"} }

  predicate IsSystem(name: string, uid: string) { SystemName(name) || SystemName(uid) }

  // ---------------------------------------------------------------- specification

  /** A request takes part when it names a node and asks for CPU. */
  predicate Counted(r: Request) { r.node != "" && r.cpu != 0 }

  function NodeTotal(rs: seq<Request>, k: NodeHour): nat {
    if rs == [] then 0 else
      var n := |rs| - 1;
      NodeTotal(rs[..n], k) + (if Counted(rs[n]) && NodeOf(rs[n]) == k then rs[n].cpu else 0)
  }

  function ClusterTotal(rs: seq<Request>, k: ClusterHour): nat {
    if rs == [] then 0 else
      var n := |rs| - 1;
      ClusterTotal(rs[..n], k) + (if Counted(rs[n]) && ClusterOf(rs[n]) == k then rs[n].cpu else 0)
  }

  /** The largest allocatable core-milliseconds any counted request reports for the node-hour. */
  function NodeCapacity(rs: seq<Request>, k: NodeHour): nat {
    if rs == [] then 0 else
      var n := |rs| - 1;
      var before := NodeCapacity(rs[..n], k);
      if Counted(rs[n]) && NodeOf(rs[n]) == k && rs[n].allocatable * 3600 > before
      then rs[n].allocatable * 3600 else before
  }

  function Denominator(rs: seq<Request>, k: NodeHour): nat {
    Max(NodeTotal(rs, k), NodeCapacity(rs, k))
  }

  function Ratio(a: nat, b: nat): real { if b == 0 then 0.0 else a as real / b as real }

  /** What a share of something costs. */
  function Price(price: real, share: real): real { price * share }

  function Weight(rs: seq<Request>, r: Request): real {
    if Counted(r) then Ratio(r.cpu, Denominator(rs, NodeOf(r))) else 0.0
  }

  function Direct(rs: seq<Request>, o: Options, r: Request): real { Price(o.node, Weight(rs, r)) }

  function Control(rs: seq<Request>, o: Options, r: Request): real {
    if Counted(r) then Price(o.controlPlane, Ratio(r.cpu, ClusterTotal(rs, ClusterOf(r)))) else 0.0
  }

  function GiB(bytes: nat): real { bytes as real / 1073741824.0 }

  function Network(o: Options, r: Request): real {
    if Counted(r) then Price(o.network, GiB(r.bytes)) else 0.0
  }

  function System(rs: seq<Request>, o: Options, r: Request): real {
    if IsSystem(r.namespaceName, r.namespaceUid) then Direct(rs, o, r) + Network(o, r) + Control(rs, o, r) else 0.0
  }

  /** The cost of what nobody requested on a node-hour. */
  function Idle(rs: seq<Request>, o: Options, k: NodeHour): real {
    IdleCost(o, NodeTotal(rs, k), Denominator(rs, k))
  }

  function Cpu(r: Request): real { if Counted(r) then r.cpu as real else 0.0 }
  function Bytes(r: Request): real { if Counted(r) then r.bytes as real else 0.0 }
  function WeightBy(rs: seq<Request>): Request -> real { r => Weight(rs, r) }
  function DirectBy(rs: seq<Request>, o: Options): Request -> real { r => Direct(rs, o, r) }
  function ControlBy(rs: seq<Request>, o: Options): Request -> real { r => Control(rs, o, r) }
  function NetworkBy(o: Options): Request -> real { r => Network(o, r) }
  function SystemBy(rs: seq<Request>, o: Options): Request -> real { r => System(rs, o, r) }
  function IdleBy(rs: seq<Request>, o: Options): NodeHour -> real { k => Idle(rs, o, k) }

  function NodeHours(rs: seq<Request>): set<NodeHour> { set r | r in rs && Counted(r) :: NodeOf(r) }

  function ClusterHours(rs: seq<Request>): set<ClusterHour> { set r | r in rs && Counted(r) :: ClusterOf(r) }

  function NamespaceHours(rs: seq<Request>): set<NamespaceHour> { set r | r in rs && Counted(r) :: NamespaceOf(r) }

  /** Node-hours with capacity to spare. */
  function Spare(rs: seq<Request>, ks: set<NodeHour>): set<NodeHour> {
    set k | k in ks && Denominator(rs, k) > NodeTotal(rs, k)
  }

  /** `item` carries exactly the shares of the requests in `seen` that belong to `n`, and `idle`. */
  ghost predicate Carries(item: NamespaceCost, n: NamespaceHour, rs: seq<Request>, seen: seq<Request>, o: Options,
                          idle: real) {
    && item.tenant == n.tenant && item.cluster == n.cluster
    && item.namespaceUid == n.namespaceUid && item.bucket == n.bucket
    && item.cpu as real == SumIn(seen, NamespaceOf, {n}, Cpu)
    && item.bytes as real == SumIn(seen, NamespaceOf, {n}, Bytes)
    && item.weight == SumIn(seen, NamespaceOf, {n}, WeightBy(rs))
    && item.direct == SumIn(seen, NamespaceOf, {n}, DirectBy(rs, o))
    && item.network == SumIn(seen, NamespaceOf, {n}, NetworkBy(o))
    && item.control == SumIn(seen, NamespaceOf, {n}, ControlBy(rs, o))
    && item.system == SumIn(seen, NamespaceOf, {n}, SystemBy(rs, o))
    && item.idle == idle
    && item.allocatedCost == item.direct + item.idle + item.network + item.control
  }

  /** The name an item shows: that of its first counted request, or the idle name. */
  function NameFor(seen: seq<Request>, n: NamespaceHour): string {
    if seen == [] then IDLE else
      var k := |seen| - 1;
      if n in NamespaceHours(seen[..k]) then NameFor(seen[..k], n)
      else if Counted(seen[k]) && NamespaceOf(seen[k]) == n then seen[k].namespaceName
      else IDLE
  }

  ghost predicate Named(items: map<NamespaceHour, NamespaceCost>, seen: seq<Request>) {
    forall n :: n in items ==> items[n].namespaceName == NameFor(seen, n)
  }

  ghost function IdleAt(rs: seq<Request>, o: Options, ks: set<NodeHour>, n: NamespaceHour): real {
    Total(Fibre(ks, IdleOf, n), IdleBy(rs, o))
  }

  /** The complete result: one item per namespace-hour with counted requests, plus idle items
      where a node has capacity to spare. */
  ghost predicate IsAllocation(items: map<NamespaceHour, NamespaceCost>, rs: seq<Request>, o: Options) {
    && items.Keys == NamespaceHours(rs) + (set k | k in Spare(rs, NodeHours(rs)) :: IdleOf(k))
    && Named(items, rs)
    && forall n :: n in items ==> Carries(items[n], n, rs, rs, o, IdleAt(rs, o, NodeHours(rs), n))
  }

  // ---------------------------------------------------------------- the engine

  lemma GrowLists(rs: seq<Request>, i: nat)
    requires i < |rs|
    ensures rs[..i + 1][..i] == rs[..i] && rs[..i + 1][i] == rs[i] && rs[..i + 1] == rs[..i] + [rs[i]]
  {
  }

  function At<K>(m: map<K, nat>, k: K): nat { if k in m then m[k] else 0 }

  ghost predicate TotalsOk(rs: seq<Request>, totals: map<NodeHour, nat>) {
    totals.Keys == NodeHours(rs) && forall k :: At(totals, k) == NodeTotal(rs, k)
  }

  ghost predicate CapacityOk(rs: seq<Request>, capacity: map<NodeHour, nat>) {
    forall k :: At(capacity, k) == NodeCapacity(rs, k)
  }

  ghost predicate ClustersOk(rs: seq<Request>, clusters: map<ClusterHour, nat>) {
    forall k :: At(clusters, k) == ClusterTotal(rs, k)
  }

  ghost predicate Tallied(rs: seq<Request>, totals: map<NodeHour, nat>, capacity: map<NodeHour, nat>,
                          clusters: map<ClusterHour, nat>) {
    TotalsOk(rs, totals) && CapacityOk(rs, capacity) && ClustersOk(rs, clusters)
  }

  lemma TallyNode(rs: seq<Request>, r: Request, k: NodeHour)
    ensures NodeTotal(rs + [r], k) == NodeTotal(rs, k) + if Counted(r) && NodeOf(r) == k then r.cpu else 0
    ensures NodeCapacity(rs + [r], k) == if Counted(r) && NodeOf(r) == k && r.allocatable * 3600 > NodeCapacity(rs, k)
                                         then r.allocatable * 3600 else NodeCapacity(rs, k)
  {
    assert (rs + [r])[..|rs|] == rs;
  }

  lemma TallyCluster(rs: seq<Request>, r: Request, k: ClusterHour)
    ensures ClusterTotal(rs + [r], k) == ClusterTotal(rs, k) + if Counted(r) && ClusterOf(r) == k then r.cpu else 0
  {
    assert (rs + [r])[..|rs|] == rs;
  }

  lemma TotalsGrow(rs: seq<Request>, r: Request, totals: map<NodeHour, nat>)
    requires TotalsOk(rs, totals)
    ensures TotalsOk(rs + [r], if Counted(r) then totals[NodeOf(r) := At(totals, NodeOf(r)) + r.cpu] else totals)
  {
    assert NodeHours(rs + [r]) == NodeHours(rs) + if Counted(r) then {NodeOf(r)} else {};
    var more := if Counted(r) then totals[NodeOf(r) := At(totals, NodeOf(r)) + r.cpu] else totals;
    forall k ensures At(more, k) == NodeTotal(rs + [r], k) { TallyNode(rs, r, k); }
  }

  lemma CapacityGrows(rs: seq<Request>, r: Request, capacity: map<NodeHour, nat>)
    requires CapacityOk(rs, capacity)
    ensures CapacityOk(rs + [r], if Counted(r) && r.allocatable * 3600 > At(capacity, NodeOf(r))
                                 then capacity[NodeOf(r) := r.allocatable * 3600] else capacity)
  {
    var more := if Counted(r) && r.allocatable * 3600 > At(capacity, NodeOf(r))
    then capacity[NodeOf(r) := r.allocatable * 3600] else capacity;
    forall k ensures At(more, k) == NodeCapacity(rs + [r], k) { TallyNode(rs, r, k); }
  }

  lemma ClustersGrow(rs: seq<Request>, r: Request, clusters: map<ClusterHour, nat>)
    requires ClustersOk(rs, clusters)
    ensures ClustersOk(rs + [r], if Counted(r) then clusters[ClusterOf(r) := At(clusters, ClusterOf(r)) + r.cpu]
                                 else clusters)
  {
    var more := if Counted(r) then clusters[ClusterOf(r) := At(clusters, ClusterOf(r)) + r.cpu] else clusters;
    forall k ensures At(more, k) == ClusterTotal(rs + [r], k) { TallyCluster(rs, r, k); }
  }

  /** The first loop. */
  method Tally(rs: seq<Request>)
    returns (totals: map<NodeHour, nat>, capacity: map<NodeHour, nat>, clusters: map<ClusterHour, nat>)
    ensures Tallied(rs, totals, capacity, clusters)
  {
    totals, capacity, clusters := map[], map[], map[];
    for i := 0 to |rs|
      invariant Tallied(rs[..i], totals, capacity, clusters)
    {
      var r := rs[i];
      assert rs[..i + 1] == rs[..i] + [r];
      TotalsGrow(rs[..i], r, totals);
      CapacityGrows(rs[..i], r, capacity);
      ClustersGrow(rs[..i], r, clusters);
      if r.node == "" || r.cpu == 0 { continue; }
      var node, cluster := NodeOf(r), ClusterOf(r);
      totals := totals[node := At(totals, node) + r.cpu];
      clusters := clusters[cluster := At(clusters, cluster) + r.cpu];
      if r.allocatable * 3600 > At(capacity, node) { capacity := capacity[node := r.allocatable * 3600]; }
    }
    assert rs[..|rs|] == rs;
  }

  /** A request of the list is billed exactly when it is counted. */
  lemma {:induction false} BilledExactly(rs: seq<Request>, r: Request)
    requires r in rs
    ensures Denominator(rs, NodeOf(r)) != 0 && r.cpu != 0 <==> Counted(r)
    ensures Counted(r) ==> ClusterTotal(rs, ClusterOf(r)) > 0 && NodeTotal(rs, NodeOf(r)) > 0
  {
    var n := |rs| - 1;
    if r.node == "" { NoNodeNoTotal(rs, NodeOf(r)); }
    if r != rs[n] {
      assert rs == rs[..n] + [rs[n]];
      BilledExactly(rs[..n], r);
    }
  }

  lemma {:induction false} NoNodeNoTotal(rs: seq<Request>, k: NodeHour)
    requires k.node == ""
    ensures Denominator(rs, k) == 0
  {
    if rs != [] { NoNodeNoTotal(rs[..|rs| - 1], k); }
  }

  lemma NothingSeen(n: NamespaceHour, rs: seq<Request>, seen: seq<Request>, o: Options)
    requires n !in NamespaceHours(seen)
    ensures SumIn(seen, NamespaceOf, {n}, Cpu) == 0.0 == SumIn(seen, NamespaceOf, {n}, Bytes)
    ensures SumIn(seen, NamespaceOf, {n}, WeightBy(rs)) == 0.0 == SumIn(seen, NamespaceOf, {n}, DirectBy(rs, o))
    ensures SumIn(seen, NamespaceOf, {n}, NetworkBy(o)) == 0.0 == SumIn(seen, NamespaceOf, {n}, ControlBy(rs, o))
    ensures SumIn(seen, NamespaceOf, {n}, SystemBy(rs, o)) == 0.0
  {
    forall r | r in seen && NamespaceOf(r) in {n} ensures !Counted(r) {}
    SumInZero(seen, NamespaceOf, {n}, Cpu);
    SumInZero(seen, NamespaceOf, {n}, Bytes);
    SumInZero(seen, NamespaceOf, {n}, WeightBy(rs));
    SumInZero(seen, NamespaceOf, {n}, DirectBy(rs, o));
    SumInZero(seen, NamespaceOf, {n}, NetworkBy(o));
    SumInZero(seen, NamespaceOf, {n}, ControlBy(rs, o));
    SumInZero(seen, NamespaceOf, {n}, SystemBy(rs, o));
  }

  function Blank(n: NamespaceHour, name: string): NamespaceCost {
    NamespaceCost(n.tenant, n.cluster, n.namespaceUid, name, n.bucket, 0, 0, 0.0, 0.0, 0.0, 0.0, 0.0, 0.0, 0.0)
  }

  function Book(item: NamespaceCost, r: Request, weight: real, direct: real, network: real,
                control: real): NamespaceCost {
    item.(cpu := item.cpu + r.cpu, bytes := item.bytes + r.bytes, weight := item.weight + weight,
          direct := item.direct + direct, network := item.network + network, control := item.control + control,
          allocatedCost := item.allocatedCost + (direct + network + control),
          system := item.system + if IsSystem(r.namespaceName, r.namespaceUid) then direct + network + control else 0.0)
  }

  /** The body of the second loop on the tallied figures. */
  function BookShares(item: NamespaceCost, o: Options, r: Request, denominator: nat, clusterTotal: nat): NamespaceCost {
    var nodeWeight, controlWeight := Ratio(r.cpu, denominator), Ratio(r.cpu, clusterTotal);
    Book(item, r, nodeWeight, Price(o.node, nodeWeight), Price(o.network, GiB(r.bytes)),
         Price(o.controlPlane, controlWeight))
  }

  lemma BookSharesCharges(item: NamespaceCost, rs: seq<Request>, o: Options, r: Request)
    requires Counted(r)
    ensures BookShares(item, o, r, Denominator(rs, NodeOf(r)), ClusterTotal(rs, ClusterOf(r))) == Charge(item, rs, o, r)
  {
  }

  /** What the second loop adds to the item of a counted request. */
  function Charge(item: NamespaceCost, rs: seq<Request>, o: Options, r: Request): NamespaceCost {
    Book(item, r, Weight(rs, r), Direct(rs, o, r), Network(o, r), Control(rs, o, r))
  }

  lemma ChargeCarries(item: NamespaceCost, rs: seq<Request>, i: nat, o: Options)
    requires i < |rs| && Counted(rs[i]) && Carries(item, NamespaceOf(rs[i]), rs, rs[..i], o, 0.0)
    ensures Carries(Charge(item, rs, o, rs[i]), NamespaceOf(rs[i]), rs, rs[..i + 1], o, 0.0)
  {
    GrowLists(rs, i);
  }

  lemma SkipCarries(item: NamespaceCost, n: NamespaceHour, rs: seq<Request>, i: nat, o: Options)
    requires i < |rs| && (Counted(rs[i]) ==> NamespaceOf(rs[i]) != n) && Carries(item, n, rs, rs[..i], o, 0.0)
    ensures Carries(item, n, rs, rs[..i + 1], o, 0.0)
  {
    GrowLists(rs, i);
  }

  ghost predicate AllCarry(items: map<NamespaceHour, NamespaceCost>, rs: seq<Request>, i: nat, o: Options)
    requires i <= |rs|
  {
    forall n :: n in items ==> Carries(items[n], n, rs, rs[..i], o, 0.0)
  }

  ghost predicate Charged(items: map<NamespaceHour, NamespaceCost>, rs: seq<Request>, i: nat, o: Options)
    requires i <= |rs|
  {
    items.Keys == NamespaceHours(rs[..i]) && Named(items, rs[..i]) && AllCarry(items, rs, i, o)
  }

  lemma {:induction false} NameAbsent(rs: seq<Request>, n: NamespaceHour)
    requires n !in NamespaceHours(rs)
    ensures NameFor(rs, n) == IDLE
  {
    if rs != [] {
      var k := |rs| - 1;
      assert rs == rs[..k] + [rs[k]];
      NameAbsent(rs[..k], n);
    }
  }

  /** The name of an item is that of one of its requests. */
  lemma {:induction false} NamePresent(rs: seq<Request>, n: NamespaceHour)
    requires n in NamespaceHours(rs)
    ensures exists r :: r in rs && Counted(r) && NamespaceOf(r) == n && NameFor(rs, n) == r.namespaceName
  {
    var k := |rs| - 1;
    assert rs == rs[..k] + [rs[k]];
    if n in NamespaceHours(rs[..k]) {
      NamePresent(rs[..k], n);
      var r :| r in rs[..k] && Counted(r) && NamespaceOf(r) == n && NameFor(rs[..k], n) == r.namespaceName;
      assert r in rs;
    } else {
      assert rs[k] in rs;
    }
  }

  /** The items after one turn of the second loop. */
  function AfterRequest(items: map<NamespaceHour, NamespaceCost>, rs: seq<Request>, i: nat,
                        o: Options): map<NamespaceHour, NamespaceCost>
    requires i < |rs|
  {
    var r, n := rs[i], NamespaceOf(rs[i]);
    var item := if n in items then items[n] else Blank(n, r.namespaceName);
    if Counted(r) then items[n := Charge(item, rs, o, r)] else items
  }

  lemma NamesGrow(items: map<NamespaceHour, NamespaceCost>, rs: seq<Request>, i: nat, o: Options)
    requires i < |rs| && items.Keys == NamespaceHours(rs[..i]) && Named(items, rs[..i])
    ensures Named(AfterRequest(items, rs, i, o), rs[..i + 1])
  {
    GrowLists(rs, i);
    var more := AfterRequest(items, rs, i, o);
    forall m | m in more ensures more[m].namespaceName == NameFor(rs[..i + 1], m) {}
  }

  lemma CarriedGrow(items: map<NamespaceHour, NamespaceCost>, rs: seq<Request>, i: nat, o: Options)
    requires i < |rs| && items.Keys == NamespaceHours(rs[..i]) && AllCarry(items, rs, i, o)
    ensures AllCarry(AfterRequest(items, rs, i, o), rs, i + 1, o)
  {
    var r, n := rs[i], NamespaceOf(rs[i]);
    forall m | m in items && (Counted(r) ==> m != n) ensures Carries(items[m], m, rs, rs[..i + 1], o, 0.0) {
      SkipCarries(items[m], m, rs, i, o);
    }
    if Counted(r) {
      var item := if n in items then items[n] else Blank(n, r.namespaceName);
      if n !in items { NothingSeen(n, rs, rs[..i], o); }
      ChargeCarries(item, rs, i, o);
    }
  }

  lemma ChargedStep(items: map<NamespaceHour, NamespaceCost>, rs: seq<Request>, i: nat, o: Options)
    requires i < |rs| && Charged(items, rs, i, o)
    ensures Charged(AfterRequest(items, rs, i, o), rs, i + 1, o)
  {
    GrowLists(rs, i);
    assert NamespaceHours(rs[..i + 1]) ==
           NamespaceHours(rs[..i]) + (if Counted(rs[i]) then {NamespaceOf(rs[i])} else {});
    NamesGrow(items, rs, i, o);
    CarriedGrow(items, rs, i, o);
  }

  /** The second loop. */
  method ChargeAll(rs: seq<Request>, o: Options, totals: map<NodeHour, nat>, capacity: map<NodeHour, nat>,
                   clusters: map<ClusterHour, nat>) returns (items: map<NamespaceHour, NamespaceCost>)
    requires Tallied(rs, totals, capacity, clusters)
    ensures Charged(items, rs, |rs|, o)
  {
    items := map[];
    for i := 0 to |rs|
      invariant Charged(items, rs, i, o)
    {
      var r := rs[i];
      BilledExactly(rs, r);
      ChargedStep(items, rs, i, o);
      var denominator := Max(At(totals, NodeOf(r)), At(capacity, NodeOf(r)));
      assert denominator == Denominator(rs, NodeOf(r));
      if denominator == 0 || r.cpu == 0 { continue; }
      var n := NamespaceOf(r);
      var item := if n in items then items[n] else Blank(n, r.namespaceName);
      BookSharesCharges(item, rs, o, r);
      items := items[n := BookShares(item, o, r, denominator, At(clusters, ClusterOf(r)))];
    }
  }

  const NO_REQUEST := Request("", "", "", "", "", 0, 0, 0, 0)

  /** `r` is at position i, the first of the node-hour, or is empty past the end. */
  ghost predicate FirstAt(r: Request, k: NodeHour, rs: seq<Request>, i: nat) {
    && i <= |rs| && (forall j :: 0 <= j < i ==> NodeOf(rs[j]) != k)
    && if i < |rs| then r == rs[i] && NodeOf(r) == k else r == NO_REQUEST
  }

  method FirstNodeRequest(k: NodeHour, rs: seq<Request>) returns (r: Request)
    ensures exists i :: FirstAt(r, k, rs, i)
  {
    for i := 0 to |rs|
      invariant forall j :: 0 <= j < i ==> NodeOf(rs[j]) != k
    {
      if NodeOf(rs[i]) == k {
        assert FirstAt(rs[i], k, rs, i);
        return rs[i];
      }
    }
    assert FirstAt(NO_REQUEST, k, rs, |rs|);
    return NO_REQUEST;
  }

  ghost predicate IdledFor(items: map<NamespaceHour, NamespaceCost>, rs: seq<Request>, o: Options,
                           done: set<NodeHour>) {
    && items.Keys == NamespaceHours(rs) + (set k | k in Spare(rs, done) :: IdleOf(k))
    && Named(items, rs)
    && forall n :: n in items ==> Carries(items[n], n, rs, rs, o, IdleAt(rs, o, done, n))
  }

  lemma IdleAtGrows(rs: seq<Request>, o: Options, done: set<NodeHour>, k: NodeHour, n: NamespaceHour)
    requires k !in done
    ensures IdleAt(rs, o, done + {k}, n) == IdleAt(rs, o, done, n) + if IdleOf(k) == n then Idle(rs, o, k) else 0.0
  {
    var before, after := Fibre(done, IdleOf, n), Fibre(done + {k}, IdleOf, n);
    if IdleOf(k) == n {
      TotalSplit(after, IdleBy(rs, o), k);
      assert after - {k} == before;
    } else {
      assert after == before;
    }
  }

  lemma IdleAbsent(rs: seq<Request>, o: Options, done: set<NodeHour>, n: NamespaceHour)
    requires forall k :: k in Spare(rs, done) ==> IdleOf(k) != n
    ensures IdleAt(rs, o, done, n) == 0.0
  {
    TotalConst(Fibre(done, IdleOf, n), IdleBy(rs, o), 0.0);
  }

  function AddIdle(item: NamespaceCost, idle: real): NamespaceCost {
    item.(idle := item.idle + idle, allocatedCost := item.allocatedCost + idle)
  }

  function BookIdle(items: map<NamespaceHour, NamespaceCost>, n: NamespaceHour,
                    idle: real): map<NamespaceHour, NamespaceCost> {
    items[n := AddIdle(if n in items then items[n] else Blank(n, IDLE), idle)]
  }

  /** The cost the third loop books for a node-hour, from its tallied figures. */
  function IdleCost(o: Options, total: nat, denominator: nat): real {
    if denominator > total then Price(o.node, Ratio(denominator - total, denominator)) else 0.0
  }

  lemma AddIdleCarries(item: NamespaceCost, n: NamespaceHour, rs: seq<Request>, o: Options, idle: real, d: real)
    requires Carries(item, n, rs, rs, o, idle)
    ensures Carries(AddIdle(item, d), n, rs, rs, o, idle + d)
  {
  }

  lemma BlankCarries(n: NamespaceHour, rs: seq<Request>, o: Options)
    requires n !in NamespaceHours(rs)
    ensures Carries(Blank(n, IDLE), n, rs, rs, o, 0.0)
  {
    NothingSeen(n, rs, rs, o);
  }

  lemma IdleKeys(rs: seq<Request>, done: set<NodeHour>, k: NodeHour)
    requires Denominator(rs, k) > NodeTotal(rs, k)
    ensures (set j | j in Spare(rs, done + {k}) :: IdleOf(j)) ==
            (set j | j in Spare(rs, done) :: IdleOf(j)) + {IdleOf(k)}
  {
    assert Spare(rs, done + {k}) == Spare(rs, done) + {k};
  }

  lemma IdleItem(items: map<NamespaceHour, NamespaceCost>, rs: seq<Request>, o: Options, done: set<NodeHour>,
                 k: NodeHour)
    requires IdledFor(items, rs, o, done) && k !in done
    ensures var n := IdleOf(k);
            var item := if n in items then items[n] else Blank(n, IDLE);
            Carries(AddIdle(item, Idle(rs, o, k)), n, rs, rs, o, IdleAt(rs, o, done + {k}, n))
  {
    var n := IdleOf(k);
    if n !in items {
      BlankCarries(n, rs, o);
      IdleAbsent(rs, o, done, n);
      AddIdleCarries(Blank(n, IDLE), n, rs, o, 0.0, Idle(rs, o, k));
    } else {
      AddIdleCarries(items[n], n, rs, o, IdleAt(rs, o, done, n), Idle(rs, o, k));
    }
    IdleAtGrows(rs, o, done, k, n);
  }

  lemma IdleStep(items: map<NamespaceHour, NamespaceCost>, rs: seq<Request>, o: Options, done: set<NodeHour>,
                 k: NodeHour)
    requires IdledFor(items, rs, o, done) && k !in done && Denominator(rs, k) > NodeTotal(rs, k)
    ensures IdledFor(BookIdle(items, IdleOf(k), Idle(rs, o, k)), rs, o, done + {k})
  {
    var n := IdleOf(k);
    if n !in items { NameAbsent(rs, n); }
    IdleKeys(rs, done, k);
    IdleItem(items, rs, o, done, k);
    forall m | m in items && m != n ensures Carries(items[m], m, rs, rs, o, IdleAt(rs, o, done + {k}, m)) {
      IdleAtGrows(rs, o, done, k, m);
    }
  }

  lemma FullStep(items: map<NamespaceHour, NamespaceCost>, rs: seq<Request>, o: Options, done: set<NodeHour>,
                 k: NodeHour)
    requires IdledFor(items, rs, o, done) && k !in done && Denominator(rs, k) <= NodeTotal(rs, k)
    ensures IdledFor(items, rs, o, done + {k})
  {
    assert Spare(rs, done + {k}) == Spare(rs, done);
    forall m | m in items ensures Carries(items[m], m, rs, rs, o, IdleAt(rs, o, done + {k}, m)) {
      IdleAtGrows(rs, o, done, k, m);
    }
  }

  /** The body of the third loop. */
  method AddIdleFor(items: map<NamespaceHour, NamespaceCost>, rs: seq<Request>, o: Options, k: NodeHour,
                    total: nat, denominator: nat, ghost done: set<NodeHour>)
    returns (more: map<NamespaceHour, NamespaceCost>)
    requires total == NodeTotal(rs, k) && denominator == Denominator(rs, k) && k in NodeHours(rs)
    requires IdledFor(items, rs, o, done) && k !in done
    ensures IdledFor(more, rs, o, done + {k})
  {
    if denominator == 0 || denominator <= total {
      FullStep(items, rs, o, done, k);
      return items;
    }
    IdleStep(items, rs, o, done, k);
    var r := FirstNodeRequest(k, rs);
    assert NodeOf(r) == k;
    var n := NamespaceHour(r.tenant, r.cluster, IDLE, r.bucket);
    assert n == IdleOf(k);
    return BookIdle(items, n, IdleCost(o, total, denominator));
  }

  /** The third loop; the order in which the node map is walked does not matter. */
  method AddIdleCapacity(charged: map<NamespaceHour, NamespaceCost>, rs: seq<Request>, o: Options,
                         totals: map<NodeHour, nat>, capacity: map<NodeHour, nat>)
    returns (items: map<NamespaceHour, NamespaceCost>)
    requires totals.Keys == NodeHours(rs)
    requires forall k :: At(totals, k) == NodeTotal(rs, k) && At(capacity, k) == NodeCapacity(rs, k)
    requires IdledFor(charged, rs, o, {})
    ensures IsAllocation(items, rs, o)
  {
    items := charged;
    var left := totals.Keys;
    ghost var done: set<NodeHour> := {};
    while left != {}
      invariant left <= NodeHours(rs) && done == NodeHours(rs) - left
      invariant IdledFor(items, rs, o, done)
      decreases left
    {
      var k :| k in left;
      left := left - {k};
      items := AddIdleFor(items, rs, o, k, At(totals, k), Max(At(totals, k), At(capacity, k)), done);
      done := done + {k};
    }
    assert done == NodeHours(rs);
  }

  lemma NothingIdleYet(items: map<NamespaceHour, NamespaceCost>, rs: seq<Request>, o: Options)
    requires Charged(items, rs, |rs|, o)
    ensures IdledFor(items, rs, o, {})
  {
    assert rs[..|rs|] == rs;
    assert (set k | k in Spare(rs, {}) :: IdleOf(k)) == {};
    forall n | n in items ensures Carries(items[n], n, rs, rs, o, IdleAt(rs, o, {}, n)) { IdleAbsent(rs, o, {}, n); }
  }
}
