/** computeLayout of GraphCanvas.vm.ts: the anchor points of a level, over the reals. */
module GraphLayout {
  import opened NodeColumns
  import opened TopologyGraph

  datatype Point = Point(x: real, y: real)

  // Arithmetic

  function Max(a: real, b: real): real {
    if a < b then b else a
  }

  function Min(a: real, b: real): real {
    if b < a then b else a
  }

  function CeilDiv(a: nat, b: nat): (q: nat)
    requires b > 0
    ensures (q as int - 1) * b < a <= q * b || (a == 0 && q == 0)
  {
    (a + b - 1) / b
  }

  /** Math.ceil(Math.sqrt(n)), searched upwards from c. */
  function CeilSqrt(n: nat, c: nat): (r: nat)
    requires c == 0 || (c - 1) * (c - 1) < n
    ensures r * r >= n && (r == 0 || (r - 1) * (r - 1) < n)
    decreases n - c
  {
    if c * c >= n then c else assert c <= c * c; CeilSqrt(n, c + 1)
  }

  lemma TimesAtLeast(k: int, unit: real, bound: real)
    requires k >= 1 && unit >= bound >= 0.0
    ensures (k as real) * unit >= bound
  {
    assert ((k - 1) as real) * unit >= 0.0;
    assert (k as real) * unit == ((k - 1) as real) * unit + unit;
  }

  // Sorting by name

  /** Insertion after every node whose name does not come later: what a stable sort does. */
  function Insert(sorted: seq<Node>, n: Node, le: (string, string) -> bool): (r: seq<Node>)
    ensures |r| == |sorted| + 1
  {
    if sorted != [] && !le(sorted[|sorted| - 1].name, n.name)
    then Insert(sorted[..|sorted| - 1], n, le) + [sorted[|sorted| - 1]]
    else sorted + [n]
  }

  /** nodes.sort by name; `le` is the order of localeCompare. */
  function SortByName(nodes: seq<Node>, le: (string, string) -> bool): (r: seq<Node>)
    ensures |r| == |nodes|
  {
    if nodes == [] then [] else Insert(SortByName(nodes[..|nodes| - 1], le), nodes[|nodes| - 1], le)
  }

  ghost predicate Order(le: (string, string) -> bool) {
    && (forall a, b :: le(a, b) || le(b, a))
    && (forall a, b, c :: le(a, b) && le(b, c) ==> le(a, c))
  }

  ghost predicate SortedByName(nodes: seq<Node>, le: (string, string) -> bool) {
    forall i, j :: 0 <= i < j < |nodes| ==> le(nodes[i].name, nodes[j].name)
  }

  lemma {:induction false} InsertIsPermutation(sorted: seq<Node>, n: Node, le: (string, string) -> bool)
    ensures multiset(Insert(sorted, n, le)) == multiset(sorted) + multiset{n}
  {
    if sorted != [] && !le(sorted[|sorted| - 1].name, n.name) {
      var init, last := sorted[..|sorted| - 1], sorted[|sorted| - 1];
      InsertIsPermutation(init, n, le);
      assert sorted == init + [last];
    }
  }

  lemma {:induction false} SortIsPermutation(nodes: seq<Node>, le: (string, string) -> bool)
    ensures multiset(SortByName(nodes, le)) == multiset(nodes)
  {
    if nodes != [] {
      var init, last := nodes[..|nodes| - 1], nodes[|nodes| - 1];
      SortIsPermutation(init, le);
      InsertIsPermutation(SortByName(init, le), last, le);
      assert nodes == init + [last];
    }
  }

  lemma AppendKeepsSorted(sorted: seq<Node>, n: Node, le: (string, string) -> bool)
    requires SortedByName(sorted, le) && forall m :: m in sorted ==> le(m.name, n.name)
    ensures SortedByName(sorted + [n], le)
  {
  }

  lemma {:induction false} InsertKeepsSorted(sorted: seq<Node>, n: Node, le: (string, string) -> bool)
    requires Order(le) && SortedByName(sorted, le)
    ensures SortedByName(Insert(sorted, n, le), le)
  {
    if sorted != [] && !le(sorted[|sorted| - 1].name, n.name) {
      var init, last := sorted[..|sorted| - 1], sorted[|sorted| - 1];
      InsertKeepsSorted(init, n, le);
      InsertIsPermutation(init, n, le);
      var r := Insert(init, n, le);
      forall m | m in r ensures le(m.name, last.name) {
        assert m in multiset(r);
      }
      AppendKeepsSorted(r, last, le);
    } else {
      AppendKeepsSorted(sorted, n, le);
    }
  }

  lemma {:induction false} SortSorts(nodes: seq<Node>, le: (string, string) -> bool)
    requires Order(le)
    ensures SortedByName(SortByName(nodes, le), le)
  {
    if nodes != [] {
      SortSorts(nodes[..|nodes| - 1], le);
      InsertKeepsSorted(SortByName(nodes[..|nodes| - 1], le), nodes[|nodes| - 1], le);
    }
  }

  ghost predicate SameRank(a: string, b: string, le: (string, string) -> bool) {
    le(a, b) && le(b, a)
  }

  /** The nodes whose names rank like this one, in the order they have here. */
  ghost function Ranked(nodes: seq<Node>, name: string, le: (string, string) -> bool): seq<Node> {
    if nodes == [] then []
    else
      var last := nodes[|nodes| - 1];
      Ranked(nodes[..|nodes| - 1], name, le) + (if SameRank(last.name, name, le) then [last] else [])
  }

  lemma RankedOfMore(nodes: seq<Node>, n: Node, name: string, le: (string, string) -> bool)
    ensures Ranked(nodes + [n], name, le)
            == Ranked(nodes, name, le) + (if SameRank(n.name, name, le) then [n] else [])
  {
    assert (nodes + [n])[..|nodes|] == nodes;
  }

  lemma {:induction false} InsertIsStable(sorted: seq<Node>, n: Node, name: string, le: (string, string) -> bool)
    requires Order(le)
    ensures Ranked(Insert(sorted, n, le), name, le) == Ranked(sorted + [n], name, le)
  {
    RankedOfMore(sorted, n, name, le);
    if sorted != [] && !le(sorted[|sorted| - 1].name, n.name) {
      var init, last := sorted[..|sorted| - 1], sorted[|sorted| - 1];
      InsertIsStable(init, n, name, le);
      RankedOfMore(init, n, name, le);
      RankedOfMore(Insert(init, n, le), last, name, le);
      assert !(SameRank(last.name, name, le) && SameRank(n.name, name, le));
    }
  }

  /** ... and leaves nodes whose names rank alike in the order of the graph. */
  lemma {:induction false} SortIsStable(nodes: seq<Node>, name: string, le: (string, string) -> bool)
    requires Order(le)
    ensures Ranked(SortByName(nodes, le), name, le) == Ranked(nodes, name, le)
  {
    if nodes != [] {
      var init, last := nodes[..|nodes| - 1], nodes[|nodes| - 1];
      SortIsStable(init, name, le);
      InsertIsStable(SortByName(init, le), last, name, le);
      RankedOfMore(SortByName(init, le), last, name, le);
    }
  }

  lemma {:induction false} InsertKeepsDistinct(sorted: seq<Node>, n: Node, le: (string, string) -> bool)
    requires DistinctNodes(sorted) && n.id !in NodeIds(sorted)
    ensures DistinctNodes(Insert(sorted, n, le))
    ensures NodeIds(Insert(sorted, n, le)) == NodeIds(sorted) + {n.id}
  {
    NodeIdsOfAppend(sorted, n);
    if sorted != [] && !le(sorted[|sorted| - 1].name, n.name) {
      var init, last := sorted[..|sorted| - 1], sorted[|sorted| - 1];
      assert sorted == init + [last];
      NodeIdsOfAppend(init, last);
      InsertKeepsDistinct(init, n, le);
      NodeIdsOfAppend(Insert(init, n, le), last);
      assert last.id !in NodeIds(Insert(init, n, le));
    }
  }

  lemma NodeIdsOfAppend(nodes: seq<Node>, n: Node)
    ensures NodeIds(nodes + [n]) == NodeIds(nodes) + {n.id}
    ensures DistinctNodes(nodes) && n.id !in NodeIds(nodes) ==> DistinctNodes(nodes + [n])
    ensures DistinctNodes(nodes + [n]) ==> DistinctNodes(nodes) && n.id !in NodeIds(nodes)
  {
    var all := nodes + [n];
    assert all[|nodes|] == n;
    assert forall i :: 0 <= i < |nodes| ==> all[i] == nodes[i];
  }

  lemma {:induction false} SortKeepsDistinct(nodes: seq<Node>, le: (string, string) -> bool)
    requires DistinctNodes(nodes)
    ensures DistinctNodes(SortByName(nodes, le)) && NodeIds(SortByName(nodes, le)) == NodeIds(nodes)
  {
    if nodes != [] {
      var init, last := nodes[..|nodes| - 1], nodes[|nodes| - 1];
      assert nodes == init + [last];
      NodeIdsOfAppend(init, last);
      SortKeepsDistinct(init, le);
      InsertKeepsDistinct(SortByName(init, le), last, le);
    }
  }

  // Anchors

  /** A level with the columns of its nodes, the size of the canvas, and the order of names. */
  datatype Canvas = Canvas(
    g: Graph, columns: map<string, nat>, width: real, height: real, le: (string, string) -> bool) {

    /** Only ungrouped nodes that have a column are anchored. */
    predicate Placed(n: Node) {
      n.group == "" && n.id in columns
    }

    /** The last column with a node up to the n-th, or -1. */
    function LastColumn(n: nat): (c: int)
      requires n <= |g.nodes|
      ensures c >= -1
      ensures forall i :: 0 <= i < n && Placed(g.nodes[i]) ==> columns[g.nodes[i].id] <= c
      ensures c >= 0 ==> exists i :: 0 <= i < n && Placed(g.nodes[i]) && columns[g.nodes[i].id] == c
    {
      if n == 0 then -1
      else
        var before, node := LastColumn(n - 1), g.nodes[n - 1];
        if Placed(node) && columns[node.id] > before then columns[node.id] else before
    }

    const lastColumn: int := LastColumn(|g.nodes|)

    const columnCount: int := lastColumn + 1 + (if |g.groups| > 0 then 1 else 0)

    const columnWidth: real :=
      if columnCount > 1 then Min(Max(240.0, (width - 200.0) / ((columnCount - 1) as real)), 380.0) else 0.0

    function ColumnX(column: int): real {
      if columnCount > 1 then 100.0 + (column as real) * columnWidth else width / 2.0
    }

    /** The nodes of a column among the first n, in graph order. */
    function ColumnNodes(column: nat, n: nat): (r: seq<Node>)
      requires n <= |g.nodes|
    {
      if n == 0 then []
      else
        var node := g.nodes[n - 1];
        if Placed(node) && columns[node.id] == column then ColumnNodes(column, n - 1) + [node]
        else ColumnNodes(column, n - 1)
    }

    /** The nodes of a column from top to bottom. */
    function Stack(column: nat): seq<Node> {
      SortByName(ColumnNodes(column, |g.nodes|), le)
    }

    function Spacing(size: nat): real {
      Max(110.0, height / ((size + 1) as real))
    }

    function NodeAnchor(column: nat, size: nat, i: nat): Point {
      var top := height / 2.0 - Spacing(size) * ((size - 1) as real) / 2.0;
      Point(ColumnX(column), top + (i as real) * Spacing(size))
    }

    const left: real := if lastColumn >= 0 then ColumnX(lastColumn + 1) - 140.0 else 0.0

    function GridColumns(): (n: nat)
      requires |g.groups| > 0
      ensures n > 0
    {
      if lastColumn >= 0 then CeilDiv(|g.groups|, 3) else CeilSqrt(|g.groups|, 0)
    }

    function GridRows(): (n: nat)
      requires |g.groups| > 0
      ensures n > 0
    {
      CeilDiv(|g.groups|, GridColumns())
    }

    function CellWidth(): (w: real)
      requires |g.groups| > 0
      ensures w >= 280.0
    {
      var areaWidth := if lastColumn >= 0 then 280.0 * (CeilDiv(|g.groups|, 3) as real) else Max(width, 300.0);
      Max(areaWidth / (GridColumns() as real), 280.0)
    }

    function CellHeight(): (h: real)
      requires |g.groups| > 0
      ensures h >= 260.0
    {
      Max(height / (GridRows() as real), 260.0)
    }

    function CellCenter(i: nat): Point
      requires |g.groups| > 0
    {
      GridPoint(left, CellWidth(), CellHeight(), GridColumns(), i)
    }
  }

  /** The centre of the i-th cell of a grid filled row by row. */
  function GridPoint(left: real, cellW: real, cellH: real, cols: nat, i: nat): Point
    requires cols > 0
  {
    Point(left + Middle(i % cols, cellW), Middle(i / cols, cellH))
  }

  /** The middle of the k-th cell of the given size. */
  function Middle(k: int, size: real): real {
    size * (k as real + 0.5)
  }

  // The method

  /** What computeLayout returns: the i-th node from the top of every column and the i-th group stand
      at their anchors, and nothing else is anchored. */
  ghost predicate IsLayout(c: Canvas, targets: map<string, Point>, groupCenters: map<string, Point>) {
    && (forall id :: id in targets <==> HasPlaced(c, id))
    && (forall column: nat :: Stacked(c, targets, column, |c.Stack(column)|))
    && (forall id :: id in groupCenters <==> exists i :: 0 <= i < |c.g.groups| && c.g.groups[i].id == id)
    && (forall i :: 0 <= i < |c.g.groups| ==> groupCenters[c.g.groups[i].id] == c.CellCenter(i))
  }

  lemma {:induction false} ColumnNodesMeaning(c: Canvas, column: nat, n: nat)
    requires n <= |c.g.nodes| && DistinctNodes(c.g.nodes)
    ensures forall x :: x in c.ColumnNodes(column, n)
              <==> x in c.g.nodes[..n] && c.Placed(x) && c.columns[x.id] == column
    ensures DistinctNodes(c.ColumnNodes(column, n))
  {
    if n > 0 {
      ColumnNodesMeaning(c, column, n - 1);
      NodeIdsOfAppend(c.ColumnNodes(column, n - 1), c.g.nodes[n - 1]);
    }
  }

  lemma StackMeaning(c: Canvas, column: nat)
    requires DistinctNodes(c.g.nodes)
    ensures forall x :: x in c.Stack(column) <==> x in c.g.nodes && c.Placed(x) && c.columns[x.id] == column
    ensures DistinctNodes(c.Stack(column))
  {
    var nodes := c.ColumnNodes(column, |c.g.nodes|);
    ColumnNodesMeaning(c, column, |c.g.nodes|);
    assert c.g.nodes[..|c.g.nodes|] == c.g.nodes;
    SortKeepsDistinct(nodes, c.le);
    SortIsPermutation(nodes, c.le);
    forall x ensures x in c.Stack(column) <==> x in nodes {
      assert x in multiset(c.Stack(column)) <==> x in multiset(nodes);
    }
  }

  /** A layout of the graph on a canvas of this size. */
  ghost predicate LaidOut(
    g: Graph, width: real, height: real, le: (string, string) -> bool, targets: map<string, Point>,
    groupCenters: map<string, Point>)
  {
    exists columns :: ColumnsOf(g, columns) && IsLayout(Canvas(g, columns, width, height, le), targets, groupCenters)
  }

  method ComputeLayout(g: Graph, width: real, height: real, le: (string, string) -> bool)
    returns (targets: map<string, Point>, groupCenters: map<string, Point>)
    requires DistinctNodes(g.nodes) && DistinctGroups(g.groups)
    ensures LaidOut(g, width, height, le, targets, groupCenters)
  {
    hide ColumnsOf, IsLayout;
    var columns := ComputeColumns(g);
    targets, groupCenters := PlaceAll(Canvas(g, columns, width, height, le));
  }

  method PlaceAll(c: Canvas) returns (targets: map<string, Point>, groupCenters: map<string, Point>)
    requires DistinctNodes(c.g.nodes) && DistinctGroups(c.g.groups)
    ensures IsLayout(c, targets, groupCenters)
  {
    var byColumn := NodesByColumn(c);
    targets := PlaceNodes(c, byColumn);
    groupCenters := PlaceGroups(c);
  }

  /** The first loop: the nodes of each occupied column. */
  method NodesByColumn(c: Canvas) returns (byColumn: map<nat, seq<Node>>)
    ensures forall column: nat :: column in byColumn <==> c.ColumnNodes(column, |c.g.nodes|) != []
    ensures forall column: nat :: column in byColumn ==> byColumn[column] == c.ColumnNodes(column, |c.g.nodes|)
  {
    byColumn := map[];
    for n := 0 to |c.g.nodes|
      invariant forall column: nat :: column in byColumn <==> c.ColumnNodes(column, n) != []
      invariant forall column: nat :: column in byColumn ==> byColumn[column] == c.ColumnNodes(column, n)
    {
      var node := c.g.nodes[n];
      if c.Placed(node) {
        var column := c.columns[node.id];
        byColumn := byColumn[column := (if column in byColumn then byColumn[column] else []) + [node]];
      }
    }
  }

  /** The first nodes of a column stand at their anchors. */
  ghost predicate Stacked(c: Canvas, targets: map<string, Point>, column: nat, upTo: nat) {
    StackedAs(c, targets, column, c.Stack(column), upTo)
  }

  ghost predicate StackedAs(c: Canvas, targets: map<string, Point>, column: nat, stack: seq<Node>, upTo: nat) {
    forall i :: 0 <= i < |stack| && i < upTo ==>
      stack[i].id in targets && targets[stack[i].id] == c.NodeAnchor(column, |stack|, i)
  }

  ghost predicate HasId(nodes: seq<Node>, id: string) {
    exists i :: 0 <= i < |nodes| && nodes[i].id == id
  }

  ghost predicate HasPlaced(c: Canvas, id: string) {
    exists i :: 0 <= i < |c.g.nodes| && c.g.nodes[i].id == id && c.Placed(c.g.nodes[i])
  }

  /** The IDs in the stack of a column. */
  lemma StackIds(c: Canvas, column: nat, id: string)
    requires DistinctNodes(c.g.nodes)
    ensures HasId(c.Stack(column), id) <==> HasPlaced(c, id) && c.columns[id] == column
  {
    StackMeaning(c, column);
    var stack := c.Stack(column);
    if HasPlaced(c, id) && c.columns[id] == column {
      var i :| 0 <= i < |c.g.nodes| && c.g.nodes[i].id == id && c.Placed(c.g.nodes[i]);
      assert c.g.nodes[i] in stack;
    }
    if HasId(stack, id) {
      var i :| 0 <= i < |stack| && stack[i].id == id;
      assert stack[i] in c.g.nodes;
    }
  }

  lemma StackedSurvives(c: Canvas, before: map<string, Point>, targets: map<string, Point>, column: nat, other: nat)
    requires DistinctNodes(c.g.nodes) && other != column
    requires Stacked(c, before, other, |c.Stack(other)|)
    requires forall id :: id in before && !HasId(c.Stack(column), id) ==> id in targets && targets[id] == before[id]
    ensures Stacked(c, targets, other, |c.Stack(other)|)
  {
    var stack := c.Stack(other);
    forall i | 0 <= i < |stack| ensures !HasId(c.Stack(column), stack[i].id) {
      assert HasId(stack, stack[i].id);
      StackIds(c, other, stack[i].id);
      StackIds(c, column, stack[i].id);
    }
  }

  /** Each column stacked from top to bottom, the columns in any order. */
  method PlaceNodes(c: Canvas, byColumn: map<nat, seq<Node>>) returns (targets: map<string, Point>)
    requires DistinctNodes(c.g.nodes)
    requires forall column: nat :: column in byColumn <==> c.ColumnNodes(column, |c.g.nodes|) != []
    requires forall column: nat :: column in byColumn ==> byColumn[column] == c.ColumnNodes(column, |c.g.nodes|)
    ensures forall id :: id in targets <==> HasPlaced(c, id)
    ensures forall column: nat :: Stacked(c, targets, column, |c.Stack(column)|)
  {
    targets := map[];
    var rest := byColumn.Keys;
    while rest != {}
      invariant rest <= byColumn.Keys
      invariant forall id :: id in targets ==> HasPlaced(c, id)
      invariant forall column: nat :: column in byColumn && column !in rest ==>
                Stacked(c, targets, column, |c.Stack(column)|)
      decreases rest
    {
      var column :| column in rest;
      ghost var before, done := targets, byColumn.Keys - rest;
      targets := PlaceColumn(c, column, byColumn[column], targets);
      forall id | id in targets ensures HasPlaced(c, id) {
        StackIds(c, column, id);
      }
      forall other | other in done ensures Stacked(c, targets, other, |c.Stack(other)|) {
        StackedSurvives(c, before, targets, column, other);
      }
      rest := rest - {column};
    }
    forall column: nat ensures Stacked(c, targets, column, |c.Stack(column)|) {
      if column !in byColumn {
        assert |c.Stack(column)| == 0;
      }
    }
    forall id | HasPlaced(c, id) ensures id in targets {
      var column := c.columns[id];
      StackIds(c, column, id);
      assert Stacked(c, targets, column, |c.Stack(column)|);
    }
  }

  method PlaceColumn(
    c: Canvas, column: nat, unsorted: seq<Node>, before: map<string, Point>) returns (targets: map<string, Point>)
    requires DistinctNodes(c.g.nodes)
    requires unsorted == c.ColumnNodes(column, |c.g.nodes|)
    ensures Stacked(c, targets, column, |c.Stack(column)|)
    ensures forall id :: id in targets <==> id in before || HasId(c.Stack(column), id)
    ensures forall id :: id in before && !HasId(c.Stack(column), id) ==> targets[id] == before[id]
  {
    var nodes := SortByName(unsorted, c.le);
    StackMeaning(c, column);
    targets := StackNodes(c, column, nodes, before);
  }

  method StackNodes(
    c: Canvas, column: nat, nodes: seq<Node>, before: map<string, Point>) returns (targets: map<string, Point>)
    requires DistinctNodes(nodes)
    ensures StackedAs(c, targets, column, nodes, |nodes|)
    ensures forall id :: id in targets <==> id in before || HasId(nodes, id)
    ensures forall id :: id in before && !HasId(nodes, id) ==> targets[id] == before[id]
  {
    targets := before;
    var spacing := Max(110.0, c.height / ((|nodes| + 1) as real));
    var top := c.height / 2.0 - spacing * ((|nodes| - 1) as real) / 2.0;
    for i := 0 to |nodes|
      invariant StackedAs(c, targets, column, nodes, i)
      invariant forall id :: id in targets <==> id in before || exists k :: 0 <= k < i && nodes[k].id == id
      invariant forall id :: id in before && !HasId(nodes, id) ==> targets[id] == before[id]
    {
      var anchor := Point(c.ColumnX(column), top + (i as real) * spacing);
      assert anchor == c.NodeAnchor(column, |nodes|, i);
      targets := targets[nodes[i].id := anchor];
    }
  }

  method PlaceGroups(c: Canvas) returns (groupCenters: map<string, Point>)
    requires DistinctGroups(c.g.groups)
    ensures forall id :: id in groupCenters <==> exists i :: 0 <= i < |c.g.groups| && c.g.groups[i].id == id
    ensures forall i :: 0 <= i < |c.g.groups| ==> groupCenters[c.g.groups[i].id] == c.CellCenter(i)
  {
    groupCenters := map[];
    if |c.g.groups| > 0 {
      var cellW, cellH, cols := c.CellWidth(), c.CellHeight(), c.GridColumns();
      for i := 0 to |c.g.groups|
        invariant forall id :: id in groupCenters <==> exists k :: 0 <= k < i && c.g.groups[k].id == id
        invariant forall k :: 0 <= k < i ==> groupCenters[c.g.groups[k].id] == c.CellCenter(k)
      {
        groupCenters := groupCenters[c.g.groups[i].id := GridPoint(c.left, cellW, cellH, cols, i)];
      }
    }
  }
}
