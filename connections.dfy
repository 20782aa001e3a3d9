/** The connector lines `drawConnections` (app.js:280-302) draws between a
    shown node and its shown parent. */
module Connections {
  import opened Wrappers
  import opened Text
  import opened Tree
  import opened Layout

  /** One SVG `line`: from (x1, y1) to (x2, y2). */
  datatype Edge = Edge(x1: real, y1: real, x2: real, y2: real)

  /** The connector from the bottom centre of the parent's box to the top
      centre of the child's box (app.js:294-297). */
  function Connector(parent: Pos, child: Pos, nodeWidth: real): (e: Edge)
    ensures e.x1 - parent.x == e.x2 - child.x == nodeWidth / 2.0
    ensures e.y1 == parent.y + 50.0 && e.y2 == child.y
  {
    Edge(parent.x + nodeWidth / 2.0, parent.y + 50.0, child.x + nodeWidth / 2.0, child.y)
  }

  /** A layout entry that gets a connector: a non-root path whose parent
      identifier has an entry. */
  predicate Connected(layout: map<string, Pos>, id: string)
  {
    id in layout && layout[id].node.path != "" && ParentId(layout[id].node.path) in layout
  }

  /** The lines the loop draws, with the width of a box passed in. */
  function DrawConnections(layout: map<string, Pos>, nodeWidth: real): set<Edge>
  {
    set id | id in layout && Connected(layout, id) :: Connector(layout[ParentId(layout[id].node.path)], layout[id], nodeWidth)
  }

  /** The message of the error the loop throws. */
  const NodeWidthUndefined := "ReferenceError: nodeWidth is not defined"

  /** The loop as written: `nodeWidth` is not in scope in
      `drawConnections`, so reading it for the first connector throws;
      before any connector nothing has been appended. */
  function DrawConnectionsAsWritten(layout: map<string, Pos>): Result<set<Edge>, string>
  {
    if exists id | id in layout :: Connected(layout, id) then Err(NodeWidthUndefined) else Ok({})
  }

  /** The code as written agrees with the intended lines exactly when there
      is no line to draw. */
  lemma AsWrittenAgrees(layout: map<string, Pos>, nodeWidth: real)
    ensures DrawConnectionsAsWritten(layout) == Ok(DrawConnections(layout, nodeWidth))
        <==> DrawConnections(layout, nodeWidth) == {}
  {
    if id :| Connected(layout, id) {
      assert Connector(layout[ParentId(layout[id].node.path)], layout[id], nodeWidth) in DrawConnections(layout, nodeWidth);
    }
  }

  /** The parent of a shown non-root node is shown before it, one level up,
      under the identifier derived from the node's path. */
  lemma ParentShown(v: View, root: Node, i: nat) returns (j: nat)
    requires Coherent(root) && root.path == ""
    requires i < |Collected(v, root)| && Collected(v, root)[i].node.path != ""
    ensures j < i
    ensures Collected(v, root)[j].id == ParentId(Collected(v, root)[i].node.path)
    ensures Collected(v, root)[j].level + 1 == Collected(v, root)[i].level
  {
    var items := Collected(v, root);
    VisitParentIds(v, root, 0, None, 0);
    assert items[i] in items;
    VisitParents(v, root, 0, None, 0);
    j :| 0 <= j < i && items[j].id == items[i].parentId.value && items[j].level + 1 == items[i].level;
  }

  /** Every shown node other than the root gets a connector from its
      parent's box, which sits on the row directly above. */
  lemma EdgeToParent(v: View, root: Node, d: Dims, i: nat)
    requires Coherent(root) && root.path == ""
    requires IdsDistinct(Collected(v, root))
    requires i < |Collected(v, root)| && Collected(v, root)[i].node.path != ""
    ensures var layout := LayoutOf(v, root, d);
      var id := Collected(v, root)[i].id;
      && Connected(layout, id)
      && layout[ParentId(layout[id].node.path)].level + 1 == layout[id].level
      && Connector(layout[ParentId(layout[id].node.path)], layout[id], d.nodeWidth) in DrawConnections(layout, d.nodeWidth)
  {
    var items := Collected(v, root);
    var layout := LayoutOf(v, root, d);
    var j := ParentShown(v, root, i);
    LayoutAt(v, root, d, i);
    LayoutAt(v, root, d, j);
    assert Connected(layout, items[i].id);
  }

  /** The layout entry a drawn connector leads to. */
  lemma EdgeTarget(layout: map<string, Pos>, nodeWidth: real, e: Edge) returns (id: string)
    requires e in DrawConnections(layout, nodeWidth)
    ensures Connected(layout, id)
    ensures e == Connector(layout[ParentId(layout[id].node.path)], layout[id], nodeWidth)
  {
    id :| id in layout && Connected(layout, id) && e == Connector(layout[ParentId(layout[id].node.path)], layout[id], nodeWidth);
  }

  /** Every key of the layout is the identifier of a collected item. */
  lemma ItemOf(v: View, root: Node, d: Dims, id: string) returns (i: nat)
    requires id in LayoutOf(v, root, d)
    ensures i < |Collected(v, root)| && Collected(v, root)[i].id == id
  {
    LayoutKeys(v, root, d);
    assert id in LayoutOf(v, root, d).Keys;
    var it :| it in Collected(v, root) && it.id == id;
    i :| 0 <= i < |Collected(v, root)| && Collected(v, root)[i] == it;
  }

  /** The node and height of a collected item's box. */
  lemma BoxOf(v: View, root: Node, d: Dims, i: nat)
    requires IdsDistinct(Collected(v, root)) && i < |Collected(v, root)|
    ensures Collected(v, root)[i].id in LayoutOf(v, root, d)
    ensures LayoutOf(v, root, d)[Collected(v, root)[i].id].node == Collected(v, root)[i].node
    ensures LayoutOf(v, root, d)[Collected(v, root)[i].id].y == RowY(d, Collected(v, root)[i].level)
  {
    LayoutAt(v, root, d, i);
  }

  /** Every connector drawn spans exactly one row: it leaves the parent's
      box 50 below its top edge and reaches the child's box one vertical
      spacing below that top edge. */
  lemma EdgesSpanOneRow(v: View, root: Node, d: Dims, e: Edge)
    requires Coherent(root) && root.path == ""
    requires IdsDistinct(Collected(v, root))
    requires e in DrawConnections(LayoutOf(v, root, d), d.nodeWidth)
    ensures e.y2 - e.y1 == d.verticalSpacing - 50.0
  {
    var items := Collected(v, root);
    var layout := LayoutOf(v, root, d);
    var id := EdgeTarget(layout, d.nodeWidth, e);
    var i := ItemOf(v, root, d, id);
    BoxOf(v, root, d, i);
    var j := ParentShown(v, root, i);
    BoxOf(v, root, d, j);
    ConnectorSpan(layout[items[j].id], layout[id], d, items[j].level);
  }

  lemma ConnectorSpan(p: Pos, c: Pos, d: Dims, level: nat)
    requires p.y == RowY(d, level) && c.y == RowY(d, level + 1)
    ensures Connector(p, c, d.nodeWidth).y2 - Connector(p, c, d.nodeWidth).y1 == d.verticalSpacing - 50.0
  {
    RowYStep(d, level);
  }

  /** On the repository of the layout unit test, the loop as written
      throws, where two connectors from the root's box were intended. */
  lemma ExampleConnections()
    ensures var f := File("file1.js", "file1.js", 100, "");
      var d1 := Dir("dir1", "dir1", 0, "", []);
      var root := Dir("test", "", 0, "", [f, d1]);
      var layout := LayoutOf(View({"root"}, 2, ""), root, Render800);
      && DrawConnectionsAsWritten(layout) == Err(NodeWidthUndefined)
      && DrawConnections(layout, 180.0) == {Edge(400.0, 100.0, 290.0, 170.0), Edge(400.0, 100.0, 510.0, 170.0)}
  {
    var f := File("file1.js", "file1.js", 100, "");
    var d1 := Dir("dir1", "dir1", 0, "", []);
    var root := Dir("test", "", 0, "", [f, d1]);
    ExampleLayout();
    ExampleMapConnections(map["root" := Pos(root, 310.0, 50.0, 0), "file1.js" := Pos(f, 200.0, 170.0, 1), "dir1" := Pos(d1, 420.0, 170.0, 1)]);
  }

  lemma ExampleMapConnections(layout: map<string, Pos>)
    requires layout.Keys == {"root", "file1.js", "dir1"}
    requires layout["root"].node.path == "" && layout["root"].x == 310.0 && layout["root"].y == 50.0
    requires layout["file1.js"].node.path == "file1.js" && layout["file1.js"].x == 200.0 && layout["file1.js"].y == 170.0
    requires layout["dir1"].node.path == "dir1" && layout["dir1"].x == 420.0 && layout["dir1"].y == 170.0
    ensures DrawConnectionsAsWritten(layout) == Err(NodeWidthUndefined)
    ensures DrawConnections(layout, 180.0) == {Edge(400.0, 100.0, 290.0, 170.0), Edge(400.0, 100.0, 510.0, 170.0)}
  {
    TopLevelParent("file1.js");
    TopLevelParent("dir1");
    assert Connected(layout, "file1.js");
    assert !Connected(layout, "root");
    assert Connected(layout, "dir1");
    var a := Connector(layout["root"], layout["file1.js"], 180.0);
    var b := Connector(layout["root"], layout["dir1"], 180.0);
    assert a == Edge(400.0, 100.0, 290.0, 170.0);
    assert b == Edge(400.0, 100.0, 510.0, 170.0);
    assert a in DrawConnections(layout, 180.0);
    assert b in DrawConnections(layout, 180.0);
    forall e | e in DrawConnections(layout, 180.0) ensures e == a || e == b {
      var id :| id in layout && Connected(layout, id) && e == Connector(layout[ParentId(layout[id].node.path)], layout[id], 180.0);
      assert id == "file1.js" || id == "dir1";
    }
  }

  /** A top-level path has the root as its parent. */
  lemma TopLevelParent(path: string)
    requires '/' !in path
    ensures ParentId(path) == "root"
  {
    assert Split(path, '/') == [path];
  }

  /** Consecutive levels are one vertical spacing apart. */
  lemma RowYStep(d: Dims, level: nat)
    ensures RowY(d, level + 1) - RowY(d, level) == d.verticalSpacing
  {
    assert (level + 1) as real * d.verticalSpacing == level as real * d.verticalSpacing + d.verticalSpacing;
  }
}
