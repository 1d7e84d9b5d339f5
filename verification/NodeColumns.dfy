/** nodeColumns of GraphCanvas.vm.ts: the column each node is anchored to. */
module NodeColumns {
  import opened OwnershipDepth
  import opened TopologyGraph

  const WORKLOAD_COLUMN := 4

  function NamespaceColumn(kind: string): nat {
    if kind in {"Ingress", "Gateway"} then 0
    else if kind in {"HTTPRoute", "GRPCRoute", "TLSRoute", "TCPRoute", "UDPRoute"} then 1
    else if kind == "Service" then 2
    else if kind in {"HorizontalPodAutoscaler", "PodDisruptionBudget", "NetworkPolicy"} then 3
    else if kind in {"ResourceQuota", "LimitRange"} then 3
    else if kind in {"ConfigMap", "Secret", "PersistentVolumeClaim", "ServiceAccount"} then 5
    else if kind in {"PersistentVolume", "RoleBinding", "ClusterRoleBinding"} then 6
    else if kind in {"StorageClass", "Role", "ClusterRole"} then 7
    else WORKLOAD_COLUMN
  }

  predicate StorageKind(kind: string) {
    kind in {"PersistentVolumeClaim", "PersistentVolume", "StorageClass"}
  }

  function StorageColumn(kind: string): nat {
    if kind == "PersistentVolume" then 1 else if kind == "StorageClass" then 2 else 0
  }

  predicate BindingKind(kind: string) {
    kind in {"RoleBinding", "ClusterRoleBinding"}
  }

  function AccessColumn(kind: string): nat {
    if BindingKind(kind) then 1 else if kind in {"Role", "ClusterRole"} then 2 else 0
  }

  /** new Map of node IDs to columns; a repeated ID keeps its last column. */
  function ColumnMap(nodes: seq<Node>, column: Node -> nat): map<string, nat> {
    if nodes == [] then map[]
    else
      var last := nodes[|nodes| - 1];
      ColumnMap(nodes[..|nodes| - 1], column)[last.id := column(last)]
  }

  lemma IdsOfInit(nodes: seq<Node>)
    requires nodes != []
    ensures NodeIds(nodes) == NodeIds(nodes[..|nodes| - 1]) + {nodes[|nodes| - 1].id}
  {
  }

  lemma {:induction false} ColumnMapAt(nodes: seq<Node>, column: Node -> nat)
    requires DistinctNodes(nodes)
    ensures ColumnMap(nodes, column).Keys == NodeIds(nodes)
    ensures forall i :: 0 <= i < |nodes| ==>
              nodes[i].id in ColumnMap(nodes, column) && ColumnMap(nodes, column)[nodes[i].id] == column(nodes[i])
  {
    if nodes != [] {
      hide NodeIds;
      ColumnMapAt(nodes[..|nodes| - 1], column);
      IdsOfInit(nodes);
    }
  }

  // Compaction at namespace level

  /** The columns of the first n nodes, each at its first occurrence: new Set. */
  function DistinctColumns(nodes: seq<Node>, n: nat): seq<nat>
    requires n <= |nodes|
  {
    if n == 0 then []
    else
      var before, column := DistinctColumns(nodes, n - 1), NamespaceColumn(nodes[n - 1].kind);
      if column in before then before else before + [column]
  }

  function InsertNumber(sorted: seq<nat>, x: nat): seq<nat> {
    if sorted != [] && x < sorted[|sorted| - 1]
    then InsertNumber(sorted[..|sorted| - 1], x) + [sorted[|sorted| - 1]]
    else sorted + [x]
  }

  /** sort((a, b) => a - b). */
  function SortNumbers(numbers: seq<nat>): seq<nat> {
    if numbers == [] then [] else InsertNumber(SortNumbers(numbers[..|numbers| - 1]), numbers[|numbers| - 1])
  }

  function UsedColumns(nodes: seq<Node>): seq<nat> {
    SortNumbers(DistinctColumns(nodes, |nodes|))
  }

  /** indexOf, on a list that holds the number. */
  function IndexOf(numbers: seq<nat>, x: nat): (i: nat)
    requires x in numbers
    ensures i < |numbers| && numbers[i] == x
  {
    if numbers[0] == x then 0 else 1 + IndexOf(numbers[1..], x)
  }

  /** The column of a node once empty columns are dropped. */
  function CompactColumn(nodes: seq<Node>, kind: string): nat {
    if NamespaceColumn(kind) in UsedColumns(nodes) then IndexOf(UsedColumns(nodes), NamespaceColumn(kind)) else 0
  }

  function Compacted(nodes: seq<Node>): Node -> nat {
    (n: Node) => CompactColumn(nodes, n.kind)
  }

  function OfKind(column: string -> nat): Node -> nat {
    (n: Node) => column(n.kind)
  }

  ghost predicate Ascending(numbers: seq<nat>) {
    forall i, j :: 0 <= i < j < |numbers| ==> numbers[i] < numbers[j]
  }

  lemma {:induction false} InsertNumberMeaning(sorted: seq<nat>, x: nat)
    requires Ascending(sorted) && x !in sorted
    ensures Ascending(InsertNumber(sorted, x))
    ensures forall y :: y in InsertNumber(sorted, x) <==> y in sorted || y == x
  {
    if sorted != [] && x < sorted[|sorted| - 1] {
      var init, last := sorted[..|sorted| - 1], sorted[|sorted| - 1];
      assert sorted == init + [last];
      InsertNumberMeaning(init, x);
      var r := InsertNumber(init, x);
      assert forall y :: y in init ==> y < last;
      assert forall k :: 0 <= k < |r| ==> r[k] in r;
    } else {
      assert forall y :: y in sorted ==> y < x;
    }
  }

  lemma {:induction false} SortNumbersMeaning(numbers: seq<nat>)
    requires forall i, j :: 0 <= i < j < |numbers| ==> numbers[i] != numbers[j]
    ensures Ascending(SortNumbers(numbers))
    ensures forall y :: y in SortNumbers(numbers) <==> y in numbers
  {
    if numbers != [] {
      var init, last := numbers[..|numbers| - 1], numbers[|numbers| - 1];
      assert numbers == init + [last];
      SortNumbersMeaning(init);
      InsertNumberMeaning(SortNumbers(init), last);
    }
  }

  lemma {:induction false} DistinctColumnsMeaning(nodes: seq<Node>, n: nat)
    requires n <= |nodes|
    ensures forall i, j :: 0 <= i < j < |DistinctColumns(nodes, n)| ==>
              DistinctColumns(nodes, n)[i] != DistinctColumns(nodes, n)[j]
    ensures forall c :: c in DistinctColumns(nodes, n)
              <==> exists k :: 0 <= k < n && NamespaceColumn(nodes[k].kind) == c
  {
    hide NamespaceColumn;
    if n > 0 {
      DistinctColumnsMeaning(nodes, n - 1);
    }
  }

  /** The columns in use, in ascending order: those of some node. */
  lemma UsedColumnsMeaning(nodes: seq<Node>)
    ensures Ascending(UsedColumns(nodes))
    ensures forall c :: c in UsedColumns(nodes) <==> exists k :: 0 <= k < |nodes| && NamespaceColumn(nodes[k].kind) == c
  {
    hide NamespaceColumn, DistinctColumns, SortNumbers;
    DistinctColumnsMeaning(nodes, |nodes|);
    SortNumbersMeaning(DistinctColumns(nodes, |nodes|));
  }

  /** Columns that keep the left-to-right order of kinds ... */
  ghost predicate KeepsOrder(nodes: seq<Node>, columns: map<string, nat>) {
    forall i, j :: 0 <= i < |nodes| && 0 <= j < |nodes| && nodes[i].id in columns && nodes[j].id in columns ==>
      (NamespaceColumn(nodes[i].kind) < NamespaceColumn(nodes[j].kind) <==> columns[nodes[i].id] < columns[nodes[j].id])
  }

  /** ... and leave no gap: a node stands in every column left of an occupied one. */
  ghost predicate LeavesNoGap(columns: map<string, nat>) {
    forall id :: id in columns ==> forall r: nat :: r < columns[id] ==> r in columns.Values
  }

  ghost predicate Compact(nodes: seq<Node>, columns: map<string, nat>) {
    columns.Keys == NodeIds(nodes) && KeepsOrder(nodes, columns) && LeavesNoGap(columns)
  }

  lemma SameOrder(nodes: seq<Node>, a: map<string, nat>, b: map<string, nat>, x: string, y: string)
    requires Compact(nodes, a) && Compact(nodes, b) && x in a && y in a
    ensures a[x] < a[y] <==> b[x] < b[y]
  {
    hide NamespaceColumn;
    var i :| 0 <= i < |nodes| && nodes[i].id == x;
    var j :| 0 <= j < |nodes| && nodes[j].id == y;
  }

  /** Where `a` puts a node in column r, `b` puts it no further right. */
  lemma NoFurtherRight(nodes: seq<Node>, a: map<string, nat>, b: map<string, nat>, id: string)
    requires Compact(nodes, a) && Compact(nodes, b) && id in a && id in b
    requires forall other :: other in a && other in b && b[other] < a[id] ==> a[other] == b[other]
    requires forall other :: other in a && other in b && a[other] < a[id] ==> a[other] == b[other]
    ensures b[id] <= a[id]
  {
    hide NamespaceColumn;
    if a[id] < b[id] {
      assert a[id] in b.Values;
      var other :| other in b && b[other] == a[id];
      SameOrder(nodes, a, b, other, id);
    }
  }

  lemma {:induction false} SameColumnsBelow(nodes: seq<Node>, a: map<string, nat>, b: map<string, nat>, r: nat)
    requires Compact(nodes, a) && Compact(nodes, b)
    ensures forall id :: id in a && id in b && (a[id] < r || b[id] < r) ==> a[id] == b[id]
  {
    hide Compact;
    if r > 0 {
      SameColumnsBelow(nodes, a, b, r - 1);
      forall id | id in a && id in b && (a[id] < r || b[id] < r) ensures a[id] == b[id] {
        if a[id] == r - 1 {
          NoFurtherRight(nodes, a, b, id);
        } else if b[id] == r - 1 {
          NoFurtherRight(nodes, b, a, id);
        }
      }
    }
  }

  /** There is only one way to keep the order and leave no gap. */
  lemma CompactColumnsAreDetermined(nodes: seq<Node>, a: map<string, nat>, b: map<string, nat>)
    requires Compact(nodes, a) && Compact(nodes, b)
    ensures a == b
  {
    forall id | id in a ensures a[id] == b[id] {
      SameColumnsBelow(nodes, a, b, a[id] + 1);
    }
  }

  lemma CompactionKeepsOrder(nodes: seq<Node>, a: Node, b: Node)
    requires a in nodes && b in nodes
    ensures NamespaceColumn(a.kind) < NamespaceColumn(b.kind)
            <==> CompactColumn(nodes, a.kind) < CompactColumn(nodes, b.kind)
  {
    hide NamespaceColumn, UsedColumns;
    UsedColumnsMeaning(nodes);
    var used := UsedColumns(nodes);
    assert NamespaceColumn(a.kind) in used && NamespaceColumn(b.kind) in used;
  }

  lemma CompactionLeavesNoGap(nodes: seq<Node>, a: Node, r: nat)
    requires a in nodes && r < CompactColumn(nodes, a.kind)
    ensures exists b :: b in nodes && CompactColumn(nodes, b.kind) == r
  {
    hide NamespaceColumn, UsedColumns;
    UsedColumnsMeaning(nodes);
    var used := UsedColumns(nodes);
    assert NamespaceColumn(a.kind) in used && used[r] in used;
    var k :| 0 <= k < |nodes| && NamespaceColumn(nodes[k].kind) == used[r];
    var i := IndexOf(used, used[r]);
    assert used[i] == used[r];
    assert nodes[k] in nodes;
  }

  // All levels

  /** Every node has the column of its kind. */
  ghost predicate ByKind(nodes: seq<Node>, columns: map<string, nat>, column: string -> nat) {
    columns.Keys == NodeIds(nodes) && forall n :: n in nodes ==> n.id in columns && columns[n.id] == column(n.kind)
  }

  ghost predicate HasStorage(nodes: seq<Node>) {
    exists n :: n in nodes && StorageKind(n.kind)
  }

  ghost predicate HasBindings(nodes: seq<Node>) {
    exists n :: n in nodes && BindingKind(n.kind)
  }

  /** The columns of a graph whose nodes are distinct: at namespace level the order of kinds without
      gaps, at object level path lengths, in the storage and access lenses fixed by kind, and none
      anywhere else. */
  ghost predicate ColumnsOf(g: Graph, columns: map<string, nat>) {
    match g.level
    case NamespaceLevel => Compact(g.nodes, columns)
    case ObjectLevel => forall id, d: nat :: (id in columns && columns[id] == d) <==> Distance(g, id, d)
    case KindLevel => columns == map[]
    case _ =>
      if HasStorage(g.nodes) then ByKind(g.nodes, columns, StorageColumn)
      else if HasBindings(g.nodes) then ByKind(g.nodes, columns, AccessColumn)
      else columns == map[]
  }

  lemma CompactedColumns(nodes: seq<Node>, columns: map<string, nat>)
    requires DistinctNodes(nodes) && columns == ColumnMap(nodes, Compacted(nodes))
    ensures Compact(nodes, columns)
  {
    hide NamespaceColumn, CompactColumn, ColumnMap;
    ColumnMapAt(nodes, Compacted(nodes));
    forall i, j | 0 <= i < |nodes| && 0 <= j < |nodes|
      ensures NamespaceColumn(nodes[i].kind) < NamespaceColumn(nodes[j].kind)
              <==> columns[nodes[i].id] < columns[nodes[j].id]
    {
      CompactionKeepsOrder(nodes, nodes[i], nodes[j]);
    }
    forall id | id in columns ensures forall r: nat :: r < columns[id] ==> r in columns.Values {
      var i :| 0 <= i < |nodes| && nodes[i].id == id;
      forall r: nat | r < columns[id] ensures r in columns.Values {
        CompactionLeavesNoGap(nodes, nodes[i], r);
        var b :| b in nodes && CompactColumn(nodes, b.kind) == r;
        var k :| 0 <= k < |nodes| && nodes[k] == b;
        assert b.id in columns && columns[b.id] == r;
      }
    }
  }

  lemma ColumnsByKind(nodes: seq<Node>, column: string -> nat, columns: map<string, nat>)
    requires DistinctNodes(nodes) && columns == ColumnMap(nodes, OfKind(column))
    ensures ByKind(nodes, columns, column)
  {
    hide ColumnMap;
    ColumnMapAt(nodes, OfKind(column));
  }

  /** A graph as the server sends it has distinct nodes. */
  method ComputeColumns(g: Graph) returns (columns: map<string, nat>)
    ensures g.level.ObjectLevel? || DistinctNodes(g.nodes) ==> ColumnsOf(g, columns)
  {
    hide StorageKind, BindingKind, StorageColumn, AccessColumn, CompactColumn, ColumnMap, Distance;
    if g.level.NamespaceLevel? {
      columns := ColumnMap(g.nodes, Compacted(g.nodes));
      if DistinctNodes(g.nodes) {
        CompactedColumns(g.nodes, columns);
      }
      return;
    }
    if g.level.ObjectLevel? {
      columns := DepthsFromRoots(g);
      return;
    }
    if g.level.KindLevel? {
      return map[];
    }
    if exists n :: n in g.nodes && StorageKind(n.kind) {
      columns := ColumnMap(g.nodes, OfKind(StorageColumn));
      if DistinctNodes(g.nodes) {
        ColumnsByKind(g.nodes, StorageColumn, columns);
      }
      return;
    }
    if exists n :: n in g.nodes && BindingKind(n.kind) {
      columns := ColumnMap(g.nodes, OfKind(AccessColumn));
      if DistinctNodes(g.nodes) {
        ColumnsByKind(g.nodes, AccessColumn, columns);
      }
      return;
    }
    return map[];
  }
}
