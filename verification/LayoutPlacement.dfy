/** Where computeLayout puts the anchors: columns spread over the canvas, stacks spread over its height,
    and group cells fill what is left. */
module LayoutPlacement {
  import opened GraphLayout
  import opened NodeColumns
  import opened OwnershipDepth
  import opened TopologyGraph

  // Columns

  /** A single column stands in the middle. */
  lemma OneColumnIsCentred(c: Canvas, column: int)
    requires c.lastColumn + (if |c.g.groups| > 0 then 1 else 0) <= 0
    ensures c.ColumnX(column) == c.width - c.ColumnX(column)
  {
  }

  /** Several start 100 from the left and are equally far apart: as far as the width allows, but at least
      240 and at most 380. */
  lemma ColumnsAreSpread(c: Canvas, column: nat, gaps: nat)
    requires gaps > 0 && gaps == c.lastColumn + (if |c.g.groups| > 0 then 1 else 0)
    ensures c.ColumnX(0) == 100.0
    ensures var gap := c.ColumnX(column + 1) - c.ColumnX(column);
            && (c.width - 200.0 <= 240.0 * (gaps as real) ==> gap == 240.0)
            && (c.width - 200.0 >= 380.0 * (gaps as real) ==> gap == 380.0)
            && (240.0 * (gaps as real) <= c.width - 200.0 <= 380.0 * (gaps as real) ==>
                  gap * (gaps as real) == c.width - 200.0)
  {
    assert c.columnCount == gaps + 1;
    var share := (c.width - 200.0) / (gaps as real);
    ShareTimes(c.width - 200.0, gaps);
    ShareBounds(c.width - 200.0, gaps, 240.0);
    ShareBounds(c.width - 200.0, gaps, 380.0);
    assert ((column + 1) as real) * c.columnWidth == (column as real) * c.columnWidth + c.columnWidth;
  }

  lemma ShareTimes(total: real, n: nat)
    requires n > 0
    ensures total / (n as real) * (n as real) == total
  {
  }

  lemma ShareBounds(total: real, n: nat, bound: real)
    requires n > 0
    ensures total <= bound * (n as real) ==> total / (n as real) <= bound
    ensures total >= bound * (n as real) ==> total / (n as real) >= bound
  {
    var share := total / (n as real);
    ShareTimes(total, n);
    if share > bound {
      assert (share - bound) * (n as real) > 0.0;
    }
    if share < bound {
      assert (bound - share) * (n as real) > 0.0;
    }
  }

  /** A column of nodes divides the height evenly where there is room for 110 between them. */
  lemma StackDividesHeight(c: Canvas, column: nat, size: nat, i: nat)
    requires i < size && c.height >= 110.0 * ((size + 1) as real)
    ensures c.NodeAnchor(column, size, i).y * ((size + 1) as real) == c.height * ((i + 1) as real)
    ensures c.NodeAnchor(column, size, i).x == c.ColumnX(column)
  {
    var n, spacing := (size + 1) as real, c.height / ((size + 1) as real);
    ShareTimes(c.height, size + 1);
    ShareBounds(c.height, size + 1, 110.0);
    assert c.Spacing(size) == spacing && spacing * n == c.height;
    assert (size - 1) as real == n - 2.0 && (i + 1) as real == i as real + 1.0;
    var top := c.height / 2.0 - spacing * ((size - 1) as real) / 2.0;
    assert spacing * ((size - 1) as real) == spacing * n - 2.0 * spacing;
    assert top == spacing;
    assert c.NodeAnchor(column, size, i).y == spacing * ((i + 1) as real);
    assert spacing * ((i + 1) as real) * n == (spacing * n) * ((i + 1) as real);
  }

  /** Otherwise they are 110 apart. */
  lemma CrowdedStack(c: Canvas, column: nat, size: nat, i: nat)
    requires c.height <= 110.0 * ((size + 1) as real)
    ensures c.NodeAnchor(column, size, i + 1).y - c.NodeAnchor(column, size, i).y == 110.0
  {
    ShareBounds(c.height, size + 1, 110.0);
    assert c.Spacing(size) == 110.0;
    assert ((i + 1) as real) * 110.0 == (i as real) * 110.0 + 110.0;
  }

  // Groups

  /** Beside columns there are at most three rows, and no column of cells more than that takes; on a canvas
      of their own groups stand in a grid as square as can be. */
  lemma GridShape(c: Canvas)
    requires |c.g.groups| > 0
    ensures var n, cols := |c.g.groups|, c.GridColumns();
            if c.lastColumn >= 0 then 3 * (cols - 1) < n <= 3 * cols else (cols - 1) * (cols - 1) < n <= cols * cols
    ensures (c.GridRows() - 1) * c.GridColumns() < |c.g.groups| <= c.GridRows() * c.GridColumns()
  {
  }

  /** Cells beside columns are 280 wide, and the first of a row stands where the next column would. */
  lemma GroupsFollowColumns(c: Canvas, i: nat)
    requires |c.g.groups| > 0 && c.lastColumn >= 0
    ensures c.CellCenter(i).x == c.ColumnX(c.lastColumn + 1) + 280.0 * ((i % c.GridColumns()) as real)
  {
    var cols := c.GridColumns();
    ShareBounds(280.0 * (cols as real), cols, 280.0);
    assert c.CellWidth() == 280.0;
    var k := i % cols;
    assert 280.0 * (k as real + 0.5) == 280.0 * (k as real) + 140.0;
  }

  /** On a canvas of their own the cells start at its edge and share its width, if that is enough. */
  lemma GroupsFillWidth(c: Canvas, i: nat)
    requires |c.g.groups| > 0 && c.lastColumn < 0 && c.width >= 300.0
    requires c.width / (c.GridColumns() as real) >= 280.0
    ensures c.CellCenter(i).x == Middle(i % c.GridColumns(), c.width / (c.GridColumns() as real))
  {
    hide Canvas.GridColumns, Canvas.CellHeight, Middle;
  }

  /** Rows share the height, if that is enough. */
  lemma GroupsFillHeight(c: Canvas, i: nat)
    requires |c.g.groups| > 0 && c.height / (c.GridRows() as real) >= 260.0
    ensures c.CellCenter(i).y == Middle(i / c.GridColumns(), c.height / (c.GridRows() as real))
  {
    hide Canvas.GridColumns, Canvas.GridRows, Canvas.CellWidth, Middle;
  }

  /** Otherwise rows are 260 high. */
  lemma CrowdedRows(c: Canvas, i: nat)
    requires |c.g.groups| > 0 && c.height / (c.GridRows() as real) <= 260.0
    ensures c.CellCenter(i).y == Middle(i / c.GridColumns(), 260.0)
  {
    hide Canvas.GridColumns, Canvas.GridRows, Canvas.CellWidth, Middle;
  }

  // Who is anchored

  /** At namespace level every node that is in no group; at object level those some path from a root
      reaches; in the storage and access lenses all of them again, and nowhere else any. */
  lemma AnchoredNodes(
    g: Graph, width: real, height: real, le: (string, string) -> bool, targets: map<string, Point>,
    groupCenters: map<string, Point>, n: Node)
    requires DistinctNodes(g.nodes) && LaidOut(g, width, height, le, targets, groupCenters) && n in g.nodes
    ensures n.group != "" ==> n.id !in targets
    ensures n.group == "" ==>
              match g.level {
                case NamespaceLevel => n.id in targets
                case ObjectLevel => n.id in targets <==> exists d: nat :: Distance(g, n.id, d)
                case KindLevel => n.id !in targets
                case _ => n.id in targets <==> HasStorage(g.nodes) || HasBindings(g.nodes)
              }
  {
    hide Distance, HasStorage, HasBindings, KeepsOrder, LeavesNoGap;
    var columns :| ColumnsOf(g, columns) && IsLayout(Canvas(g, columns, width, height, le), targets, groupCenters);
    var c := Canvas(g, columns, width, height, le);
    PlacedById(c, n);
    match g.level {
      case ObjectLevel =>
        if n.id in columns {
          assert Distance(g, n.id, columns[n.id]);
        }
      case _ =>
    }
  }

  lemma PlacedById(c: Canvas, n: Node)
    requires DistinctNodes(c.g.nodes) && n in c.g.nodes
    ensures HasPlaced(c, n.id) <==> n.group == "" && n.id in c.columns
    ensures n.id in NodeIds(c.g.nodes)
  {
    var k :| 0 <= k < |c.g.nodes| && c.g.nodes[k] == n;
    if HasPlaced(c, n.id) {
      var i :| 0 <= i < |c.g.nodes| && c.g.nodes[i].id == n.id && c.Placed(c.g.nodes[i]);
      assert i == k;
    }
  }

  /** Nothing else is: neither an ID without a node nor a group without one in the graph. */
  lemma OnlyTheseAreAnchored(
    g: Graph, width: real, height: real, le: (string, string) -> bool, targets: map<string, Point>,
    groupCenters: map<string, Point>)
    requires LaidOut(g, width, height, le, targets, groupCenters)
    ensures targets.Keys <= NodeIds(g.nodes) && groupCenters.Keys == GroupIds(g.groups)
  {
    hide ColumnsOf, Stacked;
    var columns :| ColumnsOf(g, columns) && IsLayout(Canvas(g, columns, width, height, le), targets, groupCenters);
    var c := Canvas(g, columns, width, height, le);
    forall id | id in targets ensures id in NodeIds(g.nodes) {
      assert HasPlaced(c, id);
    }
  }

  // Left to right

  /** What lets traffic in, what routes it, what receives it, what governs the workloads, the workloads, what
      they use, what is behind that, and what that is made from. */
  const LEFT_TO_RIGHT: seq<set<string>> := [
    {"Ingress", "Gateway"},
    {"HTTPRoute", "GRPCRoute", "TLSRoute", "TCPRoute", "UDPRoute"},
    {"Service"},
    {"HorizontalPodAutoscaler", "PodDisruptionBudget", "NetworkPolicy", "ResourceQuota", "LimitRange"},
    {},
    {"ConfigMap", "Secret", "PersistentVolumeClaim", "ServiceAccount"},
    {"PersistentVolume", "RoleBinding", "ClusterRoleBinding"},
    {"StorageClass", "Role", "ClusterRole"}]

  lemma ColumnsRunLeftToRight(kind: string, c: nat)
    ensures NamespaceColumn(kind) < 8
    ensures c < 8 && c != 4 ==> (NamespaceColumn(kind) == c <==> kind in LEFT_TO_RIGHT[c])
    ensures forall k :: StorageColumn(k) == 0 <==> k != "PersistentVolume" && k != "StorageClass"
    ensures StorageColumn("PersistentVolume") == 1 && StorageColumn("StorageClass") == 2
    ensures forall k :: AccessColumn(k) == 1 <==> k == "RoleBinding" || k == "ClusterRoleBinding"
    ensures forall k :: AccessColumn(k) == 2 <==> k == "Role" || k == "ClusterRole"
    ensures AccessColumn(kind) <= 2
  {
  }
}
