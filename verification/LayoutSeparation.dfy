/** What computeLayout guarantees about the anchors of a level: no two of them overlap. */
module LayoutSeparation {
  import opened GraphLayout
  import opened NodeColumns
  import opened TopologyGraph

  function Abs(x: real): real {
    if x < 0.0 then -x else x
  }

  ghost predicate Apart(p: Point, q: Point) {
    Abs(p.x - q.x) >= 110.0 || Abs(p.y - q.y) >= 110.0
  }

  /** Later columns stand at least 240 further right, group cells included. */
  lemma ColumnsAreApart(c: Canvas, a: int, b: int)
    requires c.columnCount > 1 && a < b
    ensures c.ColumnX(b) - c.ColumnX(a) >= 240.0
  {
    assert c.columnWidth >= 240.0;
    TimesAtLeast(b - a, c.columnWidth, 240.0);
    assert (b as real) * c.columnWidth - (a as real) * c.columnWidth == ((b - a) as real) * c.columnWidth;
  }

  /** Nodes of one column are stacked at least 110 apart. */
  lemma StackIsSpaced(c: Canvas, column: nat, size: nat, i: nat, j: nat)
    requires i < j
    ensures c.NodeAnchor(column, size, j).y - c.NodeAnchor(column, size, i).y >= 110.0
  {
    var spacing := c.Spacing(size);
    TimesAtLeast(j - i, spacing, 110.0);
    assert (j as real) * spacing - (i as real) * spacing == ((j - i) as real) * spacing;
  }

  /** Every column is centred on the middle of the canvas: mirrored positions balance. */
  lemma ColumnIsCentred(c: Canvas, column: nat, size: nat, i: nat)
    requires i < size
    ensures (c.NodeAnchor(column, size, i).y + c.NodeAnchor(column, size, size - 1 - i).y) / 2.0 == c.height / 2.0
  {
    var spacing := c.Spacing(size);
    assert (i as real) * spacing + ((size - 1 - i) as real) * spacing == ((size - 1) as real) * spacing;
  }

  lemma CellOfIndex(i: nat, j: nat, cols: nat)
    requires cols > 0 && i != j
    ensures i % cols != j % cols || i / cols != j / cols
  {
    assert i == i / cols * cols + i % cols;
    assert j == j / cols * cols + j % cols;
  }

  lemma Gap(a: int, b: int, unit: real, bound: real)
    requires a != b && unit >= bound >= 0.0
    ensures Abs(Middle(a, unit) - Middle(b, unit)) >= bound
  {
    TimesAtLeast(if a < b then b - a else a - b, unit, bound);
    assert unit * (a as real + 0.5) - unit * (b as real + 0.5) == ((a - b) as real) * unit;
    assert ((a - b) as real) * unit == -(((b - a) as real) * unit);
  }

  lemma GridPointsAreApart(left: real, cellW: real, cellH: real, cols: nat, i: nat, j: nat)
    requires cols > 0 && i != j && cellW >= 280.0 && cellH >= 260.0
    ensures var p, q := GridPoint(left, cellW, cellH, cols, i), GridPoint(left, cellW, cellH, cols, j);
            Abs(p.x - q.x) >= 280.0 || Abs(p.y - q.y) >= 260.0
  {
    CellOfIndex(i, j, cols);
    if i % cols != j % cols {
      Gap(i % cols, j % cols, cellW, 280.0);
    } else {
      Gap(i / cols, j / cols, cellH, 260.0);
    }
  }

  /** Group cells are at least 280 apart horizontally or 260 vertically. */
  lemma CellsAreApart(c: Canvas, i: nat, j: nat)
    requires |c.g.groups| > 0 && i != j
    ensures Abs(c.CellCenter(i).x - c.CellCenter(j).x) >= 280.0 || Abs(c.CellCenter(i).y - c.CellCenter(j).y) >= 260.0
  {
    GridPointsAreApart(c.left, c.CellWidth(), c.CellHeight(), c.GridColumns(), i, j);
  }

  /** Every group centre is at least 240 right of every occupied column. */
  lemma GroupsAreRightOfColumns(c: Canvas, column: int, i: nat)
    requires |c.g.groups| > 0 && 0 <= column <= c.lastColumn
    ensures c.CellCenter(i).x - c.ColumnX(column) >= 240.0
  {
    ColumnsAreApart(c, column, c.lastColumn + 1);
    var k := i % c.GridColumns();
    assert c.CellWidth() * (k as real) >= 0.0;
    assert c.CellWidth() * (k as real + 0.5) == c.CellWidth() * (k as real) + c.CellWidth() * 0.5;
  }

  /** Where an anchored node stands. */
  lemma AnchorOf(c: Canvas, targets: map<string, Point>, groupCenters: map<string, Point>, id: string)
    returns (column: nat, size: nat, i: nat)
    requires DistinctNodes(c.g.nodes) && IsLayout(c, targets, groupCenters) && id in targets
    ensures column <= c.lastColumn && column == c.columns[id] && size == |c.Stack(column)|
    ensures i < size && c.Stack(column)[i].id == id && targets[id] == c.NodeAnchor(column, size, i)
  {
    column := c.columns[id];
    size := |c.Stack(column)|;
    StackIds(c, column, id);
    i :| 0 <= i < size && c.Stack(column)[i].id == id;
    assert Stacked(c, targets, column, size);
  }

  /** Two anchored nodes: 110 apart vertically in one column, 240 horizontally otherwise. */
  lemma NodesAreApart(c: Canvas, targets: map<string, Point>, groupCenters: map<string, Point>, a: string, b: string)
    requires DistinctNodes(c.g.nodes) && IsLayout(c, targets, groupCenters)
    requires a in targets && b in targets && a != b
    ensures if c.columns[a] == c.columns[b] then Abs(targets[a].y - targets[b].y) >= 110.0
            else Abs(targets[a].x - targets[b].x) >= 240.0
  {
    var ca, sa, i := AnchorOf(c, targets, groupCenters, a);
    var cb, sb, j := AnchorOf(c, targets, groupCenters, b);
    if ca == cb {
      if i < j {
        StackIsSpaced(c, ca, sa, i, j);
      } else {
        StackIsSpaced(c, ca, sa, j, i);
      }
    } else if ca < cb {
      ColumnsAreApart(c, ca, cb);
    } else {
      ColumnsAreApart(c, cb, ca);
    }
  }

  /** No two anchors of a level come closer than 110 on both axes: neither two nodes, nor two
      groups, nor a node and a group. */
  lemma AnchorsAreApart(c: Canvas, targets: map<string, Point>, groupCenters: map<string, Point>)
    requires DistinctNodes(c.g.nodes) && DistinctGroups(c.g.groups) && IsLayout(c, targets, groupCenters)
    ensures forall a, b :: a in targets && b in targets && a != b ==> Apart(targets[a], targets[b])
    ensures forall p, q :: p in groupCenters && q in groupCenters && p != q ==> Apart(groupCenters[p], groupCenters[q])
    ensures forall a, p :: a in targets && p in groupCenters ==> groupCenters[p].x - targets[a].x >= 240.0
  {
    forall a, b | a in targets && b in targets && a != b ensures Apart(targets[a], targets[b]) {
      NodesAreApart(c, targets, groupCenters, a, b);
    }
    forall p, q | p in groupCenters && q in groupCenters && p != q ensures Apart(groupCenters[p], groupCenters[q]) {
      var i :| 0 <= i < |c.g.groups| && c.g.groups[i].id == p;
      var j :| 0 <= j < |c.g.groups| && c.g.groups[j].id == q;
      CellsAreApart(c, i, j);
    }
    forall a, p | a in targets && p in groupCenters ensures groupCenters[p].x - targets[a].x >= 240.0 {
      var i :| 0 <= i < |c.g.groups| && c.g.groups[i].id == p;
      var column, size, k := AnchorOf(c, targets, groupCenters, a);
      GroupsAreRightOfColumns(c, column, i);
    }
  }

  /** The same of every result of computeLayout, whatever the graph and the size of the canvas. */
  lemma LayoutsAreApart(
    g: Graph, width: real, height: real, le: (string, string) -> bool, targets: map<string, Point>,
    groupCenters: map<string, Point>)
    requires DistinctNodes(g.nodes) && DistinctGroups(g.groups) && LaidOut(g, width, height, le, targets, groupCenters)
    ensures forall a, b :: a in targets && b in targets && a != b ==> Apart(targets[a], targets[b])
    ensures forall p, q :: p in groupCenters && q in groupCenters && p != q ==> Apart(groupCenters[p], groupCenters[q])
    ensures forall a, p :: a in targets && p in groupCenters ==> groupCenters[p].x - targets[a].x >= 240.0
  {
    hide IsLayout, Apart;
    var columns :| ColumnsOf(g, columns) && IsLayout(Canvas(g, columns, width, height, le), targets, groupCenters);
    AnchorsAreApart(Canvas(g, columns, width, height, le), targets, groupCenters);
  }

  lemma SameIdSameNode(nodes: seq<Node>, a: Node, b: Node)
    requires DistinctNodes(nodes) && a in nodes && b in nodes && a.id == b.id
    ensures a == b
  {
  }

  lemma StackOrder(c: Canvas, column: nat, i: nat, j: nat)
    requires Order(c.le) && i < |c.Stack(column)| && j < |c.Stack(column)|
    requires !c.le(c.Stack(column)[j].name, c.Stack(column)[i].name)
    ensures i < j
  {
    SortSorts(c.ColumnNodes(column, |c.g.nodes|), c.le);
  }

  /** From top to bottom a column is in the order of names. */
  lemma ColumnsAreSortedByName(
    c: Canvas, targets: map<string, Point>, groupCenters: map<string, Point>, a: Node, b: Node)
    requires DistinctNodes(c.g.nodes) && IsLayout(c, targets, groupCenters) && Order(c.le)
    requires a in c.g.nodes && b in c.g.nodes && a.id in targets && b.id in targets
    requires c.columns[a.id] == c.columns[b.id] && !c.le(b.name, a.name)
    ensures targets[a.id].y < targets[b.id].y
  {
    var column, size, i := AnchorOf(c, targets, groupCenters, a.id);
    var _, _, j := AnchorOf(c, targets, groupCenters, b.id);
    StackMeaning(c, column);
    SameIdSameNode(c.g.nodes, c.Stack(column)[i], a);
    SameIdSameNode(c.g.nodes, c.Stack(column)[j], b);
    StackOrder(c, column, i, j);
    StackIsSpaced(c, column, size, i, j);
  }
}
