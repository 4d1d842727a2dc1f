/** How queued batches become rows: mapping, grouping by table, and the inserts. */
module Persistence {
  import opened Basics
  import opened Wrappers
  import opened Wire
  import opened BatchRules

  /** In the order in which the table names sort. */
  datatype Table = Cluster | Container | Deployment | Namespace | Node | Pod

  const ALL_TABLES: seq<Table> := [Cluster, Container, Deployment, Namespace, Node, Pod]

  function Rank(t: Table): nat {
    match t
    case Cluster => 0 case Container => 1 case Deployment => 2
    case Namespace => 3 case Node => 4 case Pod => 5
  }

  function TableName(t: Table): string {
    match t
    case Cluster => "cluster" case Container => "container" case Deployment => "deployment"
    case Namespace => "namespace" case Node => "node" case Pod => "pod"
  }

  /** Ranks are places among the sorted names. */
  lemma RanksFollowNames(t: Table, u: Table)
    ensures Rank(t) <= Rank(u) <==> TextBelow(TableName(t), TableName(u))
  {
    var a, b := TableName(t), TableName(u);
    TextOrder(a, b, "");
    if t == u {
    } else if Rank(t) < Rank(u) {
      NamesDiffer(t, u);
    } else {
      NamesDiffer(u, t);
    }
  }

  lemma NamesDiffer(t: Table, u: Table)
    requires Rank(t) < Rank(u)
    ensures TextBelow(TableName(t), TableName(u)) && TableName(t) != TableName(u)
  {
    var a, b := TableName(t), TableName(u);
    assert a[0] < b[0] || (a[0] == b[0] && a[1..][0] < b[1..][0]);
  }

  datatype Row = Row(
    table: Table, tenant: string, cluster: string, identity: seq<string>, operation: Operation,
    columns: string, observedAt: int, eventId: string, version: nat)

  datatype Mapped = Skipped | Mapped(row: Row) | InvalidInventory

  datatype Insert = Insert(table: Table, rows: seq<Row>)

  function MapObservation(env: Envelope, o: Observation, codec: Codec): Mapped {
    if env.tenant == "" || env.cluster == "" || o.eventId == "" || o.sequence == 0 then InvalidInventory
    else if !IsInventory(o) then Skipped
    else if !InventoryOk(o) then InvalidInventory
    else Mapped(RowOf(env, o, codec))
  }

  function RowOf(env: Envelope, o: Observation, codec: Codec): Row
    requires IsInventory(o)
  {
    var at := if o.observedAt.Some? then o.observedAt.value else env.receivedAt;
    var p := o.payload.value;
    Row(TableOf(p), env.tenant, env.cluster, IdentityOf(p), p.operation, codec.columns(p), at, codec.uuid(o.eventId),
        o.sequence)
  }

  function TableOf(p: Payload): Table
    requires !p.Other?
  {
    match p
    case ClusterInventory(_, _) => Cluster
    case NodeInventory(_, _, _) => Node
    case NamespaceInventory(_, _, _) => Namespace
    case DeploymentInventory(_, _, _) => Deployment
    case PodInventory(_, _, _) => Pod
    case ContainerInventory(_, _, _, _) => Container
  }

  function IdentityOf(p: Payload): seq<string>
    requires !p.Other?
  {
    match p
    case ClusterInventory(_, _) => []
    case NodeInventory(_, uid, _) => [uid]
    case NamespaceInventory(_, uid, _) => [uid]
    case DeploymentInventory(_, uid, _) => [uid]
    case PodInventory(_, uid, _) => [uid]
    case ContainerInventory(_, podUid, name, _) => [podUid, name]
  }

  /** `r` is the row of an inventory observation, told by the observation's own fields: its kind picks
      the table, its UIDs are the identity, a missing time is the time of receipt. */
  ghost predicate Records(r: Row, tenant: string, cluster: string, receivedAt: int, o: Observation, codec: Codec) {
    && o.payload.Some? && !o.payload.value.Other?
    && var p := o.payload.value;
       && r.tenant == tenant && r.cluster == cluster
       && (r.table == Cluster <==> p.ClusterInventory?) && (r.table == Node <==> p.NodeInventory?)
       && (r.table == Namespace <==> p.NamespaceInventory?) && (r.table == Deployment <==> p.DeploymentInventory?)
       && (r.table == Pod <==> p.PodInventory?) && (r.table == Container <==> p.ContainerInventory?)
       && r.identity == (if p.ClusterInventory? then [] else
                         if p.ContainerInventory? then [p.podUid, p.containerName] else [p.uid])
       && r.operation == p.operation && r.columns == codec.columns(p)
       && r.observedAt == (if o.observedAt.Some? then o.observedAt.value else receivedAt)
       && r.eventId == codec.uuid(o.eventId) && r.version == o.sequence
  }

  lemma RowExactly(env: Envelope, o: Observation, codec: Codec, r: Row)
    requires IsInventory(o)
    ensures Records(r, env.tenant, env.cluster, env.receivedAt, o, codec) <==> r == RowOf(env, o, codec)
  {
  }

  /** What makes an observation invalid inventory for the mapper. */
  ghost predicate Invalid(env: Envelope, o: Observation) {
    || env.tenant == "" || env.cluster == "" || o.eventId == "" || o.sequence == 0
    || (o.payload.Some? && !Complete(o.payload.value))
  }

  /** An observation is invalid, or skipped because it is no inventory, or becomes the row that records it. */
  lemma MapsExactly(env: Envelope, o: Observation, codec: Codec)
    ensures var m := MapObservation(env, o, codec);
            && (m == InvalidInventory <==> Invalid(env, o))
            && (m == Skipped <==> !Invalid(env, o) && (o.payload == None || o.payload.value.Other?))
            && (m.Mapped? ==> Records(m.row, env.tenant, env.cluster, env.receivedAt, o, codec))
  {
    InventoryExactly(o);
  }

  // ---------------------------------------------------------------- specification

  /** The rows of one batch in order, or `None` when an observation cannot be mapped. */
  function MapRun(env: Envelope, observations: seq<Observation>, codec: Codec): Option<seq<Row>> {
    if observations == [] then Some([]) else
      var n := |observations| - 1;
      match MapRun(env, observations[..n], codec)
      case None => None
      case Some(rows) =>
        match MapObservation(env, observations[n], codec)
        case InvalidInventory => None
        case Skipped => Some(rows)
        case Mapped(row) => Some(rows + [row])
  }

  function MapAll(envs: seq<Envelope>, codec: Codec): Option<seq<Row>> {
    if envs == [] then Some([]) else
      var n := |envs| - 1;
      var before := MapAll(envs[..n], codec);
      var last := MapRun(envs[n], envs[n].batch.observations, codec);
      if before.None? || last.None? then None else Some(before.value + last.value)
  }

  function ForTable(rows: seq<Row>, t: Table): seq<Row> {
    if rows == [] then [] else
      var n := |rows| - 1;
      ForTable(rows[..n], t) + (if rows[n].table == t then [rows[n]] else [])
  }

  /** The inserts for `tables` in turn, leaving out tables without rows. */
  function PlanFor(tables: seq<Table>, rows: seq<Row>): seq<Insert> {
    if tables == [] then [] else
      var n := |tables| - 1;
      var own := ForTable(rows, tables[n]);
      PlanFor(tables[..n], rows) + (if own == [] then [] else [Insert(tables[n], own)])
  }

  function Plan(rows: seq<Row>): seq<Insert> {
    PlanFor(ALL_TABLES, rows)
  }

  function Inserted(plan: seq<Insert>): seq<Row> {
    if plan == [] then [] else Inserted(plan[..|plan| - 1]) + plan[|plan| - 1].rows
  }

  function InventoryCount(envs: seq<Envelope>): nat {
    if envs == [] then 0 else
      InventoryCount(envs[..|envs| - 1]) + InventoryIn(envs[|envs| - 1].batch.observations)
  }

  function InventoryIn(observations: seq<Observation>): nat {
    if observations == [] then 0 else
      var n := |observations| - 1;
      InventoryIn(observations[..n]) + (if IsInventory(observations[n]) then 1 else 0)
  }

  // ---------------------------------------------------------------- theorems

  /** Exactly the mapped inventory observations become rows. */
  lemma {:induction false} MapRunExactly(env: Envelope, observations: seq<Observation>, codec: Codec)
    requires MapRun(env, observations, codec).Some?
    ensures var rows := MapRun(env, observations, codec).value;
            && |rows| == InventoryIn(observations)
            && (forall r :: r in rows ==> exists o :: o in observations && IsInventory(o) && r == RowOf(env, o, codec))
            && forall o :: o in observations && IsInventory(o) ==> RowOf(env, o, codec) in rows
  {
    if observations != [] {
      var n := |observations| - 1;
      MapRunExactly(env, observations[..n], codec);
      assert observations == observations[..n] + [observations[n]];
      var rows := MapRun(env, observations, codec).value;
      forall r | r in rows
        ensures exists o :: o in observations && IsInventory(o) && r == RowOf(env, o, codec) {
        if r !in MapRun(env, observations[..n], codec).value {
          assert r == RowOf(env, observations[n], codec);
        }
      }
    }
  }

  /** A row of the mapping comes from an observation of one of the batches. */
  ghost predicate RowFrom(envs: seq<Envelope>, r: Row, codec: Codec) {
    exists e, o :: e in envs && o in e.batch.observations && IsInventory(o) && r == RowOf(e, o, codec)
  }

  lemma {:induction false} MapAllExactly(envs: seq<Envelope>, codec: Codec)
    requires MapAll(envs, codec).Some?
    ensures var rows := MapAll(envs, codec).value;
            && |rows| == InventoryCount(envs)
            && (forall r :: r in rows ==> RowFrom(envs, r, codec))
            && forall e, o :: e in envs && o in e.batch.observations && IsInventory(o) ==> RowOf(e, o, codec) in rows
  {
    if envs != [] {
      var n := |envs| - 1;
      var e := envs[n];
      MapAllExactly(envs[..n], codec);
      MapRunExactly(e, e.batch.observations, codec);
      var before, last := MapAll(envs[..n], codec).value, MapRun(e, e.batch.observations, codec).value;
      assert envs == envs[..n] + [e];
      forall r | r in before + last ensures RowFrom(envs, r, codec) {
        if r in before {
          var e', o :| e' in envs[..n] && o in e'.batch.observations && IsInventory(o) && r == RowOf(e', o, codec);
          assert e' in envs;
        } else {
          var o :| o in e.batch.observations && IsInventory(o) && r == RowOf(e, o, codec);
          assert e in envs;
        }
      }
    }
  }

  lemma {:induction false} RunPoisonedExactly(env: Envelope, observations: seq<Observation>, codec: Codec)
    ensures MapRun(env, observations, codec) == None <==> exists o :: o in observations && Invalid(env, o)
  {
    if observations != [] {
      var n := |observations| - 1;
      assert observations == observations[..n] + [observations[n]];
      RunPoisonedExactly(env, observations[..n], codec);
      MapsExactly(env, observations[n], codec);
    }
  }

  ghost predicate Poison(envs: seq<Envelope>) {
    exists e, o :: e in envs && o in e.batch.observations && Invalid(e, o)
  }

  /** One invalid observation, and nothing else, keeps a lease from being mapped. */
  lemma {:induction false} PoisonedExactly(envs: seq<Envelope>, codec: Codec)
    ensures MapAll(envs, codec) == None <==> Poison(envs)
  {
    if envs != [] {
      var n := |envs| - 1;
      assert envs == envs[..n] + [envs[n]];
      PoisonedExactly(envs[..n], codec);
      RunPoisonedExactly(envs[n], envs[n].batch.observations, codec);
      if Poison(envs[..n]) {
        var e, o :| e in envs[..n] && o in e.batch.observations && Invalid(e, o);
        assert e in envs;
      }
    }
  }

  /** A batch that validation accepted, cut or not, never poisons the worker. */
  lemma AcceptedNeverPoisons(envs: seq<Envelope>, codec: Codec)
    requires forall e :: e in envs ==> e.tenant != "" && e.cluster != "" && Sound(e.batch, codec)
    ensures MapAll(envs, codec).Some?
  {
    if envs != [] {
      var e := envs[|envs| - 1];
      AcceptedNeverPoisons(envs[..|envs| - 1], codec);
      AcceptableRunMaps(e, e.batch.observations, codec);
    }
  }

  lemma {:induction false} AcceptableRunMaps(env: Envelope, observations: seq<Observation>, codec: Codec)
    requires env.tenant != "" && env.cluster != ""
    requires forall i :: 0 <= i < |observations| ==> Acceptable(observations[i]) && observations[i].sequence > 0
    ensures MapRun(env, observations, codec).Some?
  {
    if observations != [] {
      AcceptableRunMaps(env, observations[..|observations| - 1], codec);
      InventoryExactly(observations[|observations| - 1]);
    }
  }

  /** Every inventory observation has its row. */
  ghost predicate StoresAll(store: seq<Row>, envs: seq<Envelope>, codec: Codec) {
    forall e, o :: e in envs && o in e.batch.observations && IsInventory(o) ==>
                     exists r :: r in store && Records(r, e.tenant, e.cluster, e.receivedAt, o, codec)
  }

  /** Every row is that of an observation. */
  ghost predicate AddsOnly(rows: seq<Row>, envs: seq<Envelope>, codec: Codec) {
    forall r :: r in rows ==>
      exists e, o :: e in envs && o in e.batch.observations && Records(r, e.tenant, e.cluster, e.receivedAt, o, codec)
  }

  ghost predicate AllOf(rows: seq<Row>, t: Table) {
    forall r :: r in rows ==> r.table == t
  }

  lemma {:induction false} ForTableCount(rows: seq<Row>, t: Table, r: Row)
    ensures multiset(ForTable(rows, t))[r] == if r.table == t then multiset(rows)[r] else 0
  {
    if rows != [] {
      var n := |rows| - 1;
      ForTableCount(rows[..n], t, r);
      assert rows == rows[..n] + [rows[n]];
      CountAppend(rows[..n], [rows[n]], r);
      var last := if rows[n].table == t then [rows[n]] else [];
      CountAppend(ForTable(rows[..n], t), last, r);
    }
  }

  lemma {:induction false} ForTableExactly(rows: seq<Row>, t: Table)
    ensures AllOf(ForTable(rows, t), t)
    ensures forall r :: multiset(ForTable(rows, t))[r] == if r.table == t then multiset(rows)[r] else 0
  {
    if rows != [] { ForTableExactly(rows[..|rows| - 1], t); }
    forall r ensures multiset(ForTable(rows, t))[r] == if r.table == t then multiset(rows)[r] else 0 {
      ForTableCount(rows, t, r);
    }
  }

  ghost predicate Ascending(tables: seq<Table>) {
    forall i, j :: 0 <= i < j < |tables| ==> Rank(tables[i]) < Rank(tables[j])
  }

  /** The rows planned for a set of tables are exactly the rows of those tables. */
  lemma {:induction false} PlanCounts(tables: seq<Table>, rows: seq<Row>, r: Row)
    requires Ascending(tables)
    ensures multiset(Inserted(PlanFor(tables, rows)))[r] == if r.table in tables then multiset(rows)[r] else 0
  {
    if tables != [] {
      var n := |tables| - 1;
      var t := tables[n];
      PlanCounts(tables[..n], rows, r);
      ForTableCount(rows, t, r);
      assert r.table in tables <==> r.table in tables[..n] || r.table == t;
      assert t !in tables[..n];
      var own, before := ForTable(rows, t), PlanFor(tables[..n], rows);
      InsertedAppend(before, Insert(t, own));
      CountAppend(Inserted(before), own, r);
    }
  }

  lemma InsertedAppend(plan: seq<Insert>, last: Insert)
    ensures Inserted(plan + [last]) == Inserted(plan) + last.rows
    ensures Inserted(plan + []) == Inserted(plan)
  {
    assert (plan + [last])[..|plan|] == plan;
    assert plan + [] == plan;
  }

  lemma CountAppend(a: seq<Row>, b: seq<Row>, r: Row)
    ensures multiset(a + b)[r] == multiset(a)[r] + multiset(b)[r]
  {
  }

  /** One insert per table in table order, never empty, and with its rows in mapped order. */
  ghost predicate WellPlanned(plan: seq<Insert>, rows: seq<Row>) {
    && (forall i, j :: 0 <= i < j < |plan| ==> Rank(plan[i].table) < Rank(plan[j].table))
    && (forall i :: 0 <= i < |plan| ==> plan[i].rows != [] && plan[i].rows == ForTable(rows, plan[i].table))
  }

  lemma {:induction false} PlanForShape(tables: seq<Table>, rows: seq<Row>)
    requires Ascending(tables)
    ensures WellPlanned(PlanFor(tables, rows), rows)
    ensures forall i :: 0 <= i < |PlanFor(tables, rows)| ==> PlanFor(tables, rows)[i].table in tables
  {
    if tables != [] {
      var n := |tables| - 1;
      PlanForShape(tables[..n], rows);
      var before, t := PlanFor(tables[..n], rows), tables[n];
      forall i | 0 <= i < |before| ensures before[i].table in tables && Rank(before[i].table) < Rank(t) {
        var k :| 0 <= k < n && tables[..n][k] == before[i].table;
        assert tables[k] == before[i].table;
      }
      if ForTable(rows, t) != [] { PlanGrows(before, rows, t); }
    }
  }

  lemma PlanGrows(before: seq<Insert>, rows: seq<Row>, t: Table)
    requires WellPlanned(before, rows) && ForTable(rows, t) != []
    requires forall i :: 0 <= i < |before| ==> Rank(before[i].table) < Rank(t)
    ensures WellPlanned(before + [Insert(t, ForTable(rows, t))], rows)
  {
  }

  lemma SameCounts(a: seq<Row>, b: seq<Row>)
    requires forall r: Row :: multiset(a)[r] == multiset(b)[r]
    ensures multiset(a) == multiset(b) && |a| == |b|
  {
    assert multiset(a) == multiset(b);
    assert |a| == |multiset(a)| == |multiset(b)|;
  }

  /** The plan is an order-preserving partition of the mapped rows: nothing is dropped,
      nothing is written twice. */
  lemma PlanIsPartition(rows: seq<Row>)
    ensures WellPlanned(Plan(rows), rows)
    ensures multiset(Inserted(Plan(rows))) == multiset(rows)
    ensures |Inserted(Plan(rows))| == |rows|
  {
    AllTablesListed(Pod);
    PlanForShape(ALL_TABLES, rows);
    forall r: Row ensures multiset(Inserted(Plan(rows)))[r] == multiset(rows)[r] {
      AllTablesListed(r.table);
      PlanCounts(ALL_TABLES, rows, r);
    }
    SameCounts(Inserted(Plan(rows)), rows);
  }

  lemma PlanMembers(rows: seq<Row>)
    ensures forall r :: r in Inserted(Plan(rows)) <==> r in rows
  {
    PlanIsPartition(rows);
    forall r ensures r in Inserted(Plan(rows)) <==> r in rows {
      assert r in multiset(Inserted(Plan(rows))) <==> r in multiset(rows);
    }
  }

  lemma PlanStoresAll(envs: seq<Envelope>, codec: Codec)
    requires MapAll(envs, codec).Some?
    ensures StoresAll(Inserted(Plan(MapAll(envs, codec).value)), envs, codec)
  {
    var rows := MapAll(envs, codec).value;
    MapAllExactly(envs, codec);
    PlanMembers(rows);
    forall e, o | e in envs && o in e.batch.observations && IsInventory(o)
      ensures exists r :: r in Inserted(Plan(rows)) && Records(r, e.tenant, e.cluster, e.receivedAt, o, codec) {
      RowExactly(e, o, codec, RowOf(e, o, codec));
      assert RowOf(e, o, codec) in rows;
    }
  }

  lemma PlanAddsOnly(envs: seq<Envelope>, codec: Codec)
    requires MapAll(envs, codec).Some?
    ensures AddsOnly(Inserted(Plan(MapAll(envs, codec).value)), envs, codec)
  {
    var rows := MapAll(envs, codec).value;
    MapAllExactly(envs, codec);
    PlanMembers(rows);
    forall r | r in Inserted(Plan(rows))
      ensures exists e, o :: e in envs && o in e.batch.observations
                             && Records(r, e.tenant, e.cluster, e.receivedAt, o, codec) {
      var e, o :| e in envs && o in e.batch.observations && IsInventory(o) && r == RowOf(e, o, codec);
      RowExactly(e, o, codec, r);
    }
  }

  /** The plan of a lease holds exactly the rows that record its inventory. */
  lemma PlanRecords(envs: seq<Envelope>, codec: Codec)
    requires MapAll(envs, codec).Some?
    ensures var rows := Inserted(Plan(MapAll(envs, codec).value));
            StoresAll(rows, envs, codec) && AddsOnly(rows, envs, codec)
  {
    PlanStoresAll(envs, codec);
    PlanAddsOnly(envs, codec);
  }

  /** What is stored after all inserts. */
  lemma WholeRecords(envs: seq<Envelope>, codec: Codec, before: seq<Row>, after: seq<Row>)
    requires MapAll(envs, codec).Some? && after == before + Inserted(Plan(MapAll(envs, codec).value))
    ensures StoresAll(after[|before|..], envs, codec) && AddsOnly(after[|before|..], envs, codec)
  {
    PlanRecords(envs, codec);
    assert after[|before|..] == Inserted(Plan(MapAll(envs, codec).value));
  }

  lemma {:induction false} PlanPrefix(plan: seq<Insert>, i: nat)
    requires i <= |plan|
    ensures forall r :: r in Inserted(plan[..i]) ==> r in Inserted(plan)
    ensures i < |plan| ==> forall r :: r in plan[i].rows ==> r in Inserted(plan)
  {
    if i < |plan| {
      var n := |plan| - 1;
      if i < n {
        PlanPrefix(plan[..n], i);
        assert plan[..n][..i] == plan[..i];
      }
    } else {
      assert plan[..i] == plan;
    }
  }

  /** What is stored after some of the inserts and part of the next. */
  lemma PartRecords(envs: seq<Envelope>, codec: Codec, plan: seq<Insert>, i: nat, k: nat, before: seq<Row>,
                    after: seq<Row>)
    requires MapAll(envs, codec).Some? && plan == Plan(MapAll(envs, codec).value)
    requires i < |plan| && k <= |plan[i].rows|
    requires after == before + Inserted(plan[..i]) + plan[i].rows[..k]
    ensures AddsOnly(after[|before|..], envs, codec)
  {
    PlanAddsOnly(envs, codec);
    PlanPrefix(plan, i);
    forall r | r in after[|before|..] ensures r in Inserted(plan) {
      assert after[|before|..] == Inserted(plan[..i]) + plan[i].rows[..k];
      if r !in Inserted(plan[..i]) { assert r in plan[i].rows; }
    }
  }

  // ---------------------------------------------------------------- the repository

  /** Two ascending table lists with the same members are the same list. */
  lemma {:induction false} AscendingUnique(a: seq<Table>, b: seq<Table>)
    requires Ascending(a) && Ascending(b)
    requires forall t :: t in a <==> t in b
    ensures a == b
  {
    assert b != [] ==> b[0] in a;
    if a != [] {
      assert a[0] in b;
      SameFirst(a, b);
      forall t ensures t in a[1..] <==> t in b[1..] {
        TailMembers(a, t);
        TailMembers(b, t);
      }
      AscendingUnique(a[1..], b[1..]);
      assert a == [a[0]] + a[1..] && b == [b[0]] + b[1..];
    }
  }

  lemma SameFirst(a: seq<Table>, b: seq<Table>)
    requires a != [] && b != [] && Ascending(a) && Ascending(b) && a[0] in b && b[0] in a
    ensures a[0] == b[0]
  {
    var i :| 0 <= i < |b| && b[i] == a[0];
    var j :| 0 <= j < |a| && a[j] == b[0];
    assert Rank(b[0]) <= Rank(b[i]) && Rank(a[0]) <= Rank(a[j]);
    SameRank(a[0], b[0]);
  }

  lemma TailMembers(a: seq<Table>, t: Table)
    requires a != [] && Ascending(a)
    ensures t in a[1..] <==> t in a && t != a[0]
  {
    assert a == [a[0]] + a[1..];
    if t in a[1..] {
      var i :| 0 <= i < |a[1..]| && a[1..][i] == t;
      assert a[i + 1] == t;
    }
  }

  function TablesOf(plan: seq<Insert>): seq<Table> {
    seq(|plan|, i requires 0 <= i < |plan| => plan[i].table)
  }

  lemma {:induction false} PlanForTables(tables: seq<Table>, rows: seq<Row>)
    ensures forall t :: t in TablesOf(PlanFor(tables, rows)) <==> t in tables && ForTable(rows, t) != []
  {
    if tables != [] {
      var n := |tables| - 1;
      var before, p := PlanFor(tables[..n], rows), PlanFor(tables, rows);
      PlanForTables(tables[..n], rows);
      assert tables == tables[..n] + [tables[n]];
      if ForTable(rows, tables[n]) == [] {
        assert p == before;
      } else {
        assert TablesOf(p) == TablesOf(before) + [tables[n]];
      }
    }
  }

  lemma AllTablesListed(t: Table)
    ensures t in ALL_TABLES && Ascending(ALL_TABLES)
  {
    assert ALL_TABLES[Rank(t)] == t;
  }

  /** Insertion keeps the list ascending. */
  method SortTables(order: seq<Table>) returns (sorted: seq<Table>)
    requires forall i, j :: 0 <= i < j < |order| ==> order[i] != order[j]
    ensures Ascending(sorted)
    ensures forall t :: t in sorted <==> t in order
  {
    sorted := [];
    for i := 0 to |order|
      invariant Ascending(sorted)
      invariant forall t :: t in sorted <==> t in order[..i]
    {
      var t := order[i];
      assert order[..i + 1] == order[..i] + [t];
      var k := 0;
      while k < |sorted| && Rank(sorted[k]) < Rank(t)
        invariant 0 <= k <= |sorted|
        invariant forall j :: 0 <= j < k ==> Rank(sorted[j]) < Rank(t)
      {
        k := k + 1;
      }
      assert t !in sorted;
      if k < |sorted| { assert Rank(sorted[k]) > Rank(t) by { assert sorted[k] in sorted; SameRank(sorted[k], t); } }
      sorted := sorted[..k] + [t] + sorted[k..];
    }
    assert order[..|order|] == order;
  }

  lemma SameRank(a: Table, b: Table)
    ensures Rank(a) == Rank(b) ==> a == b
  {
  }

  ghost predicate Grouped(grouped: map<Table, seq<Row>>, order: seq<Table>, rows: seq<Row>) {
    Keyed(grouped, order) && forall t :: GroupIs(grouped, rows, t)
  }

  lemma {:induction false} MapRunPrefix(env: Envelope, observations: seq<Observation>, k: nat, codec: Codec)
    requires k <= |observations| && MapRun(env, observations[..k], codec).None?
    ensures MapRun(env, observations, codec).None?
    decreases |observations|
  {
    if k < |observations| {
      var n := |observations| - 1;
      assert observations[..n][..k] == observations[..k];
      MapRunPrefix(env, observations[..n], k, codec);
    } else {
      assert observations[..k] == observations;
    }
  }

  lemma {:induction false} MapAllPrefix(envs: seq<Envelope>, k: nat, codec: Codec)
    requires k <= |envs| && MapAll(envs[..k], codec).None?
    ensures MapAll(envs, codec).None?
    decreases |envs|
  {
    if k < |envs| {
      var n := |envs| - 1;
      assert envs[..n][..k] == envs[..k];
      MapAllPrefix(envs[..n], k, codec);
    } else {
      assert envs[..k] == envs;
    }
  }

  /** A row joins its table, which is opened on first use. */
  method AddRow(grouped: map<Table, seq<Row>>, order: seq<Table>, ghost rows: seq<Row>, row: Row)
    returns (grouped': map<Table, seq<Row>>, order': seq<Table>)
    requires Grouped(grouped, order, rows)
    ensures Grouped(grouped', order', rows + [row])
  {
    GroupGrows(grouped, order, rows, row);
    ghost var own := (if row.table in grouped then grouped[row.table] else []) + [row];
    grouped', order' := grouped, order;
    if row.table !in grouped' {
      grouped' := grouped'[row.table := []];
      order' := order' + [row.table];
    }
    grouped' := grouped'[row.table := grouped'[row.table] + [row]];
    assert grouped' == grouped[row.table := own];
  }

  lemma MapRunStep(env: Envelope, observations: seq<Observation>, i: nat, codec: Codec)
    requires i < |observations| && MapRun(env, observations[..i], codec).Some?
    ensures MapRun(env, observations[..i + 1], codec) ==
            match MapObservation(env, observations[i], codec)
            case InvalidInventory => None
            case Skipped => MapRun(env, observations[..i], codec)
            case Mapped(row) => Some(MapRun(env, observations[..i], codec).value + [row])
  {
    assert observations[..i + 1][..i] == observations[..i];
  }

  /** The inner loop: one batch's rows join their tables; `false` for invalid inventory. */
  method GroupBatch(env: Envelope, grouped: map<Table, seq<Row>>, order: seq<Table>, ghost rows: seq<Row>, codec: Codec)
    returns (ok: bool, grouped': map<Table, seq<Row>>, order': seq<Table>)
    requires Grouped(grouped, order, rows)
    ensures ok <==> MapRun(env, env.batch.observations, codec).Some?
    ensures ok ==> Grouped(grouped', order', rows + MapRun(env, env.batch.observations, codec).value)
  {
    grouped', order' := grouped, order;
    var observations := env.batch.observations;
    ghost var own, all: seq<Row> := [], rows;
    for i := 0 to |observations|
      invariant MapRun(env, observations[..i], codec) == Some(own) && all == rows + own
      invariant Grouped(grouped', order', all)
    {
      MapRunStep(env, observations, i, codec);
      var mapped := MapObservation(env, observations[i], codec);
      if mapped == InvalidInventory {
        MapRunPrefix(env, observations, i + 1, codec);
        return false, grouped', order';
      }
      if mapped.Mapped? {
        grouped', order' := AddRow(grouped', order', all, mapped.row);
        own, all := own + [mapped.row], all + [mapped.row];
      }
    }
    assert observations[..|observations|] == observations;
    ok := true;
  }

  /** The last loop before the inserts: one insert per table, in table order. */
  method InsertsOf(grouped: map<Table, seq<Row>>, order: seq<Table>,
                   ghost rows: seq<Row>) returns (inserts: seq<Insert>)
    requires Grouped(grouped, order, rows)
    ensures inserts == Plan(rows)
  {
    forall t ensures t in order <==> ForTable(rows, t) != [] { assert GroupIs(grouped, rows, t); }
    var sorted := SortTables(order);
    inserts := [];
    for i := 0 to |sorted|
      invariant |inserts| == i
      invariant forall j :: 0 <= j < i ==> inserts[j] == Insert(sorted[j], ForTable(rows, sorted[j]))
    {
      assert sorted[i] in sorted && GroupIs(grouped, rows, sorted[i]);
      inserts := inserts + [Insert(sorted[i], grouped[sorted[i]])];
    }
    PlanIsSorted(rows, sorted);
    assert inserts == Plan(rows);
  }

  lemma MapAllStep(envs: seq<Envelope>, b: nat, codec: Codec)
    requires b < |envs|
    ensures MapAll(envs[..b + 1], codec) ==
            var before, last := MapAll(envs[..b], codec), MapRun(envs[b], envs[b].batch.observations, codec);
            if before.None? || last.None? then None else Some(before.value + last.value)
  {
    assert envs[..b + 1][..b] == envs[..b];
  }

  /** The mapping and grouping half of `Persist`: the inserts, or `None` for invalid inventory. */
  method PlanInserts(envs: seq<Envelope>, codec: Codec) returns (plan: Option<seq<Insert>>)
    ensures MapAll(envs, codec).None? ==> plan == None
    ensures MapAll(envs, codec).Some? ==> plan == Some(Plan(MapAll(envs, codec).value))
  {
    var grouped: map<Table, seq<Row>>, order: seq<Table> := map[], [];
    ghost var rows: seq<Row> := [];
    for b := 0 to |envs|
      invariant MapAll(envs[..b], codec) == Some(rows)
      invariant Grouped(grouped, order, rows)
    {
      MapAllStep(envs, b, codec);
      var ok, more, tables := GroupBatch(envs[b], grouped, order, rows, codec);
      if !ok {
        MapAllPrefix(envs, b + 1, codec);
        return None;
      }
      grouped, order := more, tables;
      rows := rows + MapRun(envs[b], envs[b].batch.observations, codec).value;
    }
    assert envs[..|envs|] == envs;
    var inserts := InsertsOf(grouped, order, rows);
    plan := Some(inserts);
  }

  lemma ForTableGrows(rows: seq<Row>, row: Row, t: Table)
    ensures ForTable(rows + [row], t) == if t == row.table then ForTable(rows, t) + [row] else ForTable(rows, t)
  {
    assert (rows + [row])[..|rows|] == rows;
  }

  /** One table's group holds its rows, and exists only if there are any. */
  ghost predicate GroupIs(grouped: map<Table, seq<Row>>, rows: seq<Row>, t: Table) {
    && (t in grouped <==> ForTable(rows, t) != [])
    && (t in grouped ==> grouped[t] == ForTable(rows, t))
  }

  /** The groups are listed once each. */
  ghost predicate Keyed(grouped: map<Table, seq<Row>>, order: seq<Table>) {
    && (forall t :: t in order <==> t in grouped)
    && forall i, j :: 0 <= i < j < |order| ==> order[i] != order[j]
  }

  lemma KeyedGrows(grouped: map<Table, seq<Row>>, order: seq<Table>, t: Table, own: seq<Row>)
    requires Keyed(grouped, order)
    ensures Keyed(grouped[t := own], if t in grouped then order else order + [t])
  {
    if t !in grouped { assert forall x :: x in order + [t] <==> x in order || x == t; }
  }

  lemma GroupGrows(grouped: map<Table, seq<Row>>, order: seq<Table>, rows: seq<Row>, row: Row)
    requires Grouped(grouped, order, rows)
    ensures var t := row.table;
            var own := (if t in grouped then grouped[t] else []) + [row];
            Grouped(grouped[t := own], if t in grouped then order else order + [t], rows + [row])
  {
    var t := row.table;
    var own := (if t in grouped then grouped[t] else []) + [row];
    KeyedGrows(grouped, order, t, own);
    var more, grown := rows + [row], grouped[t := own];
    forall x ensures GroupIs(grown, more, x) {
      assert GroupIs(grouped, rows, x);
      ForTableGrows(rows, row, x);
    }
  }

  lemma PlanIsSorted(rows: seq<Row>, sorted: seq<Table>)
    requires Ascending(sorted)
    requires forall t :: t in sorted <==> ForTable(rows, t) != []
    ensures |Plan(rows)| == |sorted|
    ensures forall j :: 0 <= j < |sorted| ==> Plan(rows)[j] == Insert(sorted[j], ForTable(rows, sorted[j]))
  {
    var plan := Plan(rows);
    var tables := TablesOf(plan);
    AllTablesListed(Pod);
    PlanForTables(ALL_TABLES, rows);
    PlanForShape(ALL_TABLES, rows);
    forall t ensures t in tables <==> t in sorted { AllTablesListed(t); }
    assert Ascending(tables);
    AscendingUnique(tables, sorted);
    forall j | 0 <= j < |sorted| ensures plan[j] == Insert(sorted[j], ForTable(rows, sorted[j])) {
      assert tables[j] == plan[j].table;
    }
  }

  datatype Outcome = Stored | Failed | Poisoned

  class Repository {
    var store: seq<Row>

    constructor ()
      ensures store == []
    {
      store := [];
    }

    /** `failAt` is the insert the database refuses (past the end: none), `landed` how many of its
        rows were written anyway. A mapping error comes before the first insert. */
    method Persist(envs: seq<Envelope>, failAt: nat, landed: nat, codec: Codec) returns (outcome: Outcome)
      modifies this
      ensures outcome == Poisoned <==> Poison(envs)
      ensures outcome == Poisoned <==> MapAll(envs, codec).None?
      ensures old(store) <= store && AddsOnly(store[|old(store)|..], envs, codec)
      ensures outcome == Stored ==> StoresAll(store[|old(store)|..], envs, codec)
      ensures outcome == Poisoned ==> store == old(store)
      ensures outcome != Poisoned ==>
                var plan := Plan(MapAll(envs, codec).value);
                && (outcome == Stored <==> failAt >= |plan|)
                && (outcome == Stored ==> store == old(store) + Inserted(plan))
                && (outcome == Failed ==>
                      exists k :: 0 <= k <= |plan[failAt].rows| &&
                                  store == old(store) + Inserted(plan[..failAt]) + plan[failAt].rows[..k])
    {
      PoisonedExactly(envs, codec);
      var planned := PlanInserts(envs, codec);
      if planned == None { return Poisoned; }
      var plan := planned.value;
      for i := 0 to |plan|
        invariant i <= failAt
        invariant store == old(store) + Inserted(plan[..i])
      {
        assert plan[..i + 1][..i] == plan[..i];
        if i == failAt {
          var k := if landed < |plan[i].rows| then landed else |plan[i].rows|;
          store := store + plan[i].rows[..k];
          PartRecords(envs, codec, plan, i, k, old(store), store);
          return Failed;
        }
        store := store + plan[i].rows;
      }
      assert plan[..|plan|] == plan;
      WholeRecords(envs, codec, old(store), store);
      return Stored;
    }
  }
}
