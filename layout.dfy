/** `calculateLayout` (app.js:229-278): which nodes are shown, grouped by
    tree level, and where each one is placed. */
module Layout {
  import opened Wrappers
  import opened Text
  import opened Tree
  import opened Expansion

  // ---------------------------------------------------------------------
  // which nodes are shown (collectNodes, app.js:235-262)

  /** The view settings `collectNodes` reads: the expanded identifiers,
      the depth limit and the lower-cased search query. */
  datatype View = View(expanded: set<string>, maxDepth: int, query: string)

  /** One entry of `levelNodes`: a shown node, its identifier, its parent's
      identifier (`null` for the root) and its index among its siblings. */
  datatype Item = Item(node: Node, id: string, parentId: Option<string>, index: nat, level: nat)

  /** `!query || name.toLowerCase().includes(query)`. */
  predicate Matches(name: string, query: string)
  {
    query == "" || Contains(Lower(name), query)
  }

  /** A node is shown when it matches the search or is expanded above the
      depth limit. */
  predicate Shown(v: View, n: Node, level: nat)
  {
    Matches(n.name, v.query) || (Id(n) in v.expanded && level < v.maxDepth)
  }

  /** The walk enters the children of an expanded node that has a children
      array and lies above the depth limit. */
  predicate Descends(v: View, n: Node, level: nat)
  {
    Id(n) in v.expanded && n.Dir? && level < v.maxDepth
  }

  /** The items `collectNodes(n, level, parentId, index)` pushes, in order. */
  function Visit(v: View, n: Node, level: nat, parentId: Option<string>, index: nat): seq<Item>
  {
    (if Shown(v, n, level) then [Item(n, Id(n), parentId, index, level)] else [])
    + (if Descends(v, n, level) then VisitKids(v, n.children, level + 1, Id(n), 0) else [])
  }

  /** The items of the children `cs`, the first of which has index `from`. */
  function VisitKids(v: View, cs: seq<Node>, level: nat, parentId: string, from: nat): seq<Item>
  {
    if cs == [] then []
    else Visit(v, cs[0], level, Some(parentId), from) + VisitKids(v, cs[1..], level, parentId, from + 1)
  }

  /** Every pushed item is its node with that node's identifier; it is
      shown; it lies at or below the starting level; and a node below the
      starting level lies within the depth limit, so beyond the limit only
      nodes matching the search appear. */
  lemma {:induction false} VisitItems(v: View, n: Node, level: nat, parentId: Option<string>, index: nat)
    ensures forall it | it in Visit(v, n, level, parentId, index) ::
      && it.id == Id(it.node) && Shown(v, it.node, it.level) && level <= it.level
      && (it.level > level ==> it.level <= v.maxDepth)
      && (it.level >= v.maxDepth ==> Matches(it.node.name, v.query))
  {
    if Descends(v, n, level) {
      VisitKidsItems(v, n.children, level + 1, Id(n), 0);
    }
  }

  lemma {:induction false} VisitKidsItems(v: View, cs: seq<Node>, level: nat, parentId: string, from: nat)
    requires level <= v.maxDepth
    ensures forall it | it in VisitKids(v, cs, level, parentId, from) ::
      && it.id == Id(it.node) && Shown(v, it.node, it.level) && level <= it.level <= v.maxDepth
      && (it.level >= v.maxDepth ==> Matches(it.node.name, v.query))
  {
    if cs != [] {
      VisitItems(v, cs[0], level, Some(parentId), from);
      VisitKidsItems(v, cs[1..], level, parentId, from + 1);
    }
  }

  /** The walk reaches the node at address `a` below `n`: every node
      strictly above it on the way down is one the walk descends into. */
  predicate Reached(v: View, n: Node, level: nat, a: Addr)
    requires ValidAddr(n, a)
    decreases a
  {
    a == [] || (Descends(v, n, level) && Reached(v, n.children[a[0]], level + 1, a[1..]))
  }

  /** The parent identifier and sibling index the walk hands to the node
      at address `a` below `n`. */
  function Handed(n: Node, a: Addr, parentId: Option<string>, index: nat): (Option<string>, nat)
    requires ValidAddr(n, a)
    decreases a
  {
    if a == [] then (parentId, index) else Handed(n.children[a[0]], a[1..], Some(Id(n)), a[0])
  }

  /** Conversely, every node the walk reaches and that is shown at its
      level is collected, with its identifier, the parent identifier and
      index it is handed, and its level. */
  lemma {:induction false} VisitReaches(v: View, n: Node, level: nat, parentId: Option<string>, index: nat, a: Addr)
    requires ValidAddr(n, a) && Reached(v, n, level, a) && Shown(v, At(n, a), level + |a|)
    ensures var h := Handed(n, a, parentId, index);
      Item(At(n, a), Id(At(n, a)), h.0, h.1, level + |a|) in Visit(v, n, level, parentId, index)
    decreases a
  {
    var self, kids := Own(v, n, level, parentId, index), Below(v, n, level);
    assert Visit(v, n, level, parentId, index) == self + kids;
    if a == [] {
      InFirst(self, kids, Item(n, Id(n), parentId, index, level));
    } else {
      var k, b := a[0], a[1..];
      var c := n.children[k];
      VisitReaches(v, c, level + 1, Some(Id(n)), k, b);
      var h := Handed(c, b, Some(Id(n)), k);
      var it := Item(At(c, b), Id(At(c, b)), h.0, h.1, level + 1 + |b|);
      assert n.children[0..] == n.children;
      VisitKidsHas(v, n, level, 0, n.children, k, it);
      InSecond(self, kids, it);
      assert At(n, a) == At(c, b) && Handed(n, a, parentId, index) == h && level + |a| == level + 1 + |b|;
    }
  }

  /** The item `collectNodes` pushes for the node itself, if shown. */
  function Own(v: View, n: Node, level: nat, parentId: Option<string>, index: nat): seq<Item>
  {
    if Shown(v, n, level) then [Item(n, Id(n), parentId, index, level)] else []
  }

  /** The items of the children the walk descends into. */
  function Below(v: View, n: Node, level: nat): seq<Item>
  {
    if Descends(v, n, level) then VisitKids(v, n.children, level + 1, Id(n), 0) else []
  }

  /** `it` is the item the walk collects for the node at address `a`. */
  predicate CollectsAt(v: View, n: Node, level: nat, parentId: Option<string>, index: nat, a: Addr, it: Item)
  {
    && ValidAddr(n, a) && Reached(v, n, level, a) && Shown(v, At(n, a), level + |a|)
    && var h := Handed(n, a, parentId, index);
      it == Item(At(n, a), Id(At(n, a)), h.0, h.1, level + |a|)
  }

  /** `it` is the item the walk collects for some node below `n`. */
  ghost predicate Collects(v: View, n: Node, level: nat, parentId: Option<string>, index: nat, it: Item)
  {
    exists a :: CollectsAt(v, n, level, parentId, index, a, it)
  }

  /** Every collected item is the one of a node the walk reaches, shown at
      its level; with `VisitReaches`, the walk collects exactly these. */
  lemma {:induction false} VisitFrom(v: View, n: Node, level: nat, parentId: Option<string>, index: nat)
    ensures forall it | it in Visit(v, n, level, parentId, index) :: Collects(v, n, level, parentId, index, it)
    decreases n, 1, 0
  {
    var self, kids := Own(v, n, level, parentId, index), Below(v, n, level);
    assert Visit(v, n, level, parentId, index) == self + kids;
    if Shown(v, n, level) {
      assert CollectsAt(v, n, level, parentId, index, [], Item(n, Id(n), parentId, index, level));
    }
    if Descends(v, n, level) {
      assert n.children[0..] == n.children;
      VisitKidsFrom(v, n, level, parentId, index, 0, n.children);
    }
  }

  /** Every item of the children from the `j`-th on is the one of a node
      the walk reaches below `p`. */
  lemma {:induction false} VisitKidsFrom(v: View, p: Node, level: nat, parentId: Option<string>, index: nat, j: nat, cs: seq<Node>)
    requires Descends(v, p, level) && j <= |p.children| && cs == p.children[j..]
    ensures forall it | it in VisitKids(v, cs, level + 1, Id(p), j) :: Collects(v, p, level, parentId, index, it)
    decreases p, 0, |p.children| - j
  {
    if j < |p.children| {
      var c := p.children[j];
      VisitKidsCons(v, cs, level + 1, Id(p), j);
      assert cs[0] == c && cs[1..] == p.children[j + 1..];
      var head := Visit(v, c, level + 1, Some(Id(p)), j);
      var rest := VisitKids(v, p.children[j + 1..], level + 1, Id(p), j + 1);
      VisitFrom(v, c, level + 1, Some(Id(p)), j);
      forall it | it in head ensures Collects(v, p, level, parentId, index, it) {
        var b :| CollectsAt(v, c, level + 1, Some(Id(p)), j, b, it);
        CollectsBelow(v, p, level, parentId, index, j, b, it);
      }
      VisitKidsFrom(v, p, level, parentId, index, j + 1, cs[1..]);
    }
  }

  /** A child's item at address `b` is the item at `[k] + b` of a node the
      walk descends into. */
  lemma CollectsBelow(v: View, n: Node, level: nat, parentId: Option<string>, index: nat, k: nat, b: Addr, it: Item)
    requires Descends(v, n, level) && k < |n.children|
    requires CollectsAt(v, n.children[k], level + 1, Some(Id(n)), k, b, it)
    ensures CollectsAt(v, n, level, parentId, index, [k] + b, it)
  {
    var a := [k] + b;
    assert a[0] == k && a[1..] == b;
    assert At(n, a) == At(n.children[k], b);
  }

  /** The items of the `k`-th child are among the children's items. */
  lemma {:induction false} VisitKidsHas(v: View, p: Node, level: nat, j: nat, cs: seq<Node>, k: nat, it: Item)
    requires p.Dir? && j <= k < |p.children| && cs == p.children[j..]
    requires it in Visit(v, p.children[k], level + 1, Some(Id(p)), k)
    ensures it in VisitKids(v, cs, level + 1, Id(p), j)
    decreases k - j
  {
    VisitKidsCons(v, cs, level + 1, Id(p), j);
    var head := Visit(v, cs[0], level + 1, Some(Id(p)), j);
    var rest := VisitKids(v, cs[1..], level + 1, Id(p), j + 1);
    assert cs[0] == p.children[j] && cs[1..] == p.children[j + 1..];
    if k > j {
      VisitKidsHas(v, p, level, j + 1, cs[1..], k, it);
      InSecond(head, rest, it);
    } else {
      InFirst(head, rest, it);
    }
  }

  lemma InFirst(a: seq<Item>, b: seq<Item>, x: Item)
    requires x in a
    ensures x in a + b
  {
  }

  lemma InSecond(a: seq<Item>, b: seq<Item>, x: Item)
    requires x in b
    ensures x in a + b
  {
  }

  lemma InEither(a: seq<Item>, b: seq<Item>, x: Item)
    requires x in a + b
    ensures x in a || x in b
  {
  }

  /** The children's items grow child by child (the loop at app.js:253-259). */
  lemma {:induction false} VisitKidsSnoc(v: View, cs: seq<Node>, level: nat, parentId: string, i: nat)
    requires i < |cs|
    ensures VisitKids(v, cs[..i + 1], level, parentId, 0)
         == VisitKids(v, cs[..i], level, parentId, 0) + Visit(v, cs[i], level, Some(parentId), i)
  {
    VisitKidsFromSnoc(v, cs[..i + 1], level, parentId, 0);
    assert cs[..i + 1][..i] == cs[..i];
  }

  lemma {:induction false} VisitKidsFromSnoc(v: View, cs: seq<Node>, level: nat, parentId: string, from: nat)
    requires cs != []
    ensures VisitKids(v, cs, level, parentId, from)
         == VisitKids(v, cs[..|cs| - 1], level, parentId, from) + Visit(v, cs[|cs| - 1], level, Some(parentId), from + |cs| - 1)
  {
    if |cs| == 1 {
      assert cs[..0] == [];
    } else {
      var init, tail := cs[..|cs| - 1], cs[1..];
      assert tail[..|tail| - 1] == init[1..];
      assert tail[|tail| - 1] == cs[|cs| - 1];
      assert from + 1 + |tail| - 1 == from + |cs| - 1;
      VisitKidsFromSnoc(v, tail, level, parentId, from + 1);
      var head := Visit(v, cs[0], level, Some(parentId), from);
      var mid := VisitKids(v, init[1..], level, parentId, from + 1);
      var last := Visit(v, cs[|cs| - 1], level, Some(parentId), from + |cs| - 1);
      assert VisitKids(v, tail, level, parentId, from + 1) == mid + last;
      VisitKidsCons(v, cs, level, parentId, from);
      assert init[0] == cs[0];
      VisitKidsCons(v, init, level, parentId, from);
      Regroup(head, mid, last);
    }
  }

  lemma VisitKidsCons(v: View, cs: seq<Node>, level: nat, parentId: string, from: nat)
    requires cs != []
    ensures VisitKids(v, cs, level, parentId, from)
         == Visit(v, cs[0], level, Some(parentId), from) + VisitKids(v, cs[1..], level, parentId, from + 1)
  {
  }

  lemma Regroup(a: seq<Item>, b: seq<Item>, c: seq<Item>)
    ensures a + (b + c) == (a + b) + c
  {
  }

  // ---------------------------------------------------------------------
  // properties of the shown set

  /** Expanding more nodes or raising the depth limit only adds items. */
  lemma {:induction false} VisitMonotone(v: View, w: View, n: Node, level: nat, parentId: Option<string>, index: nat)
    requires v.expanded <= w.expanded && v.maxDepth <= w.maxDepth && v.query == w.query
    ensures forall it | it in Visit(v, n, level, parentId, index) :: it in Visit(w, n, level, parentId, index)
  {
    if Descends(v, n, level) {
      VisitKidsMonotone(v, w, n.children, level + 1, Id(n), 0);
    }
  }

  lemma {:induction false} VisitKidsMonotone(v: View, w: View, cs: seq<Node>, level: nat, parentId: string, from: nat)
    requires v.expanded <= w.expanded && v.maxDepth <= w.maxDepth && v.query == w.query
    ensures forall it | it in VisitKids(v, cs, level, parentId, from) :: it in VisitKids(w, cs, level, parentId, from)
  {
    if cs != [] {
      VisitMonotone(v, w, cs[0], level, Some(parentId), from);
      VisitKidsMonotone(v, w, cs[1..], level, parentId, from + 1);
    }
  }

  /** The number of levels below a node. */
  function Height(n: Node): nat
  {
    if n.Dir? then 1 + MaxHeight(n.children) else 0
  }

  function MaxHeight(cs: seq<Node>): nat
  {
    if cs == [] then 0
    else
      var h := Height(cs[0]);
      var rest := MaxHeight(cs[1..]);
      if h < rest then rest else h
  }

  /** With an empty search, every directory expanded (as `expandAll` does)
      and the depth limit not below the tree's height, every node is shown
      exactly once: as many items as `collectStats` counts files and
      directories. */
  lemma {:induction false} VisitAll(v: View, n: Node, level: nat, parentId: Option<string>, index: nat)
    requires v.query == "" && Listed(n)
    requires n.Dir? ==> DirIds(n) <= v.expanded
    requires level + Height(n) <= v.maxDepth
    ensures |Visit(v, n, level, parentId, index)| == CountFiles(n) + CountDirs(n)
  {
    if n.Dir? {
      VisitKidsAll(v, n.children, level + 1, Id(n), 0);
    }
  }

  lemma {:induction false} VisitKidsAll(v: View, cs: seq<Node>, level: nat, parentId: string, from: nat)
    requires v.query == "" && forall i | 0 <= i < |cs| :: Listed(cs[i])
    requires DirIdsOf(cs) <= v.expanded
    requires level + MaxHeight(cs) <= v.maxDepth
    ensures |VisitKids(v, cs, level, parentId, from)| == CountFilesOf(cs) + CountDirsOf(cs)
  {
    if cs != [] {
      VisitAll(v, cs[0], level, Some(parentId), from);
      VisitKidsAll(v, cs[1..], level, parentId, from + 1);
    }
  }

  /** Item `i` has a parent, and an item with the parent's identifier one
      level up was pushed before it. */
  predicate ParentBefore(items: seq<Item>, i: nat)
    requires i < |items| && items[i].parentId.Some?
  {
    exists j | 0 <= j < i :: items[j].id == items[i].parentId.value && items[j].level + 1 == items[i].level
  }

  lemma ParentBeforeShift(a: seq<Item>, b: seq<Item>, i: nat)
    requires i < |b| && b[i].parentId.Some? && ParentBefore(b, i)
    ensures ParentBefore(a + b, |a| + i)
  {
    var j :| 0 <= j < i && b[j].id == b[i].parentId.value && b[j].level + 1 == b[i].level;
    assert (a + b)[|a| + j] == b[j];
  }

  lemma ParentBeforeKeep(a: seq<Item>, b: seq<Item>, i: nat)
    requires i < |a| && a[i].parentId.Some? && ParentBefore(a, i)
    ensures ParentBefore(a + b, i)
  {
    var j :| 0 <= j < i && a[j].id == a[i].parentId.value && a[j].level + 1 == a[i].level;
    assert (a + b)[j] == a[j];
  }

  /** A node is shown only below a shown parent: every item but the first
      one's siblings has its parent pushed before it, one level up. */
  lemma {:induction false} VisitParents(v: View, n: Node, level: nat, parentId: Option<string>, index: nat)
    ensures forall i | 0 <= i < |Visit(v, n, level, parentId, index)| && Visit(v, n, level, parentId, index)[i].parentId.Some? ::
      || ParentBefore(Visit(v, n, level, parentId, index), i)
      || (Visit(v, n, level, parentId, index)[i].parentId == parentId && Visit(v, n, level, parentId, index)[i].level == level)
  {
    var items := Visit(v, n, level, parentId, index);
    if Descends(v, n, level) {
      var self := [Item(n, Id(n), parentId, index, level)];
      var kids := VisitKids(v, n.children, level + 1, Id(n), 0);
      VisitKidsParents(v, n.children, level + 1, Id(n), 0);
      assert items == self + kids;
      forall i | 0 <= i < |items| && items[i].parentId.Some?
        ensures ParentBefore(items, i) || (items[i].parentId == parentId && items[i].level == level)
      {
        if i > 0 {
          assert items[i] == kids[i - 1];
          if ParentBefore(kids, i - 1) {
            ParentBeforeShift(self, kids, i - 1);
          } else {
            assert kids[i - 1].parentId == Some(Id(n)) && kids[i - 1].level == level + 1;
            assert items[0].id == items[i].parentId.value && items[0].level + 1 == items[i].level;
          }
        }
      }
    }
  }

  lemma {:induction false} VisitKidsParents(v: View, cs: seq<Node>, level: nat, parentId: string, from: nat)
    ensures forall i | 0 <= i < |VisitKids(v, cs, level, parentId, from)| && VisitKids(v, cs, level, parentId, from)[i].parentId.Some? ::
      || ParentBefore(VisitKids(v, cs, level, parentId, from), i)
      || (VisitKids(v, cs, level, parentId, from)[i].parentId == Some(parentId) && VisitKids(v, cs, level, parentId, from)[i].level == level)
  {
    if cs != [] {
      var items := VisitKids(v, cs, level, parentId, from);
      var a := Visit(v, cs[0], level, Some(parentId), from);
      var b := VisitKids(v, cs[1..], level, parentId, from + 1);
      VisitParents(v, cs[0], level, Some(parentId), from);
      VisitKidsParents(v, cs[1..], level, parentId, from + 1);
      forall i | 0 <= i < |items| && items[i].parentId.Some?
        ensures ParentBefore(items, i) || (items[i].parentId == Some(parentId) && items[i].level == level)
      {
        if i < |a| {
          assert items[i] == a[i];
          if ParentBefore(a, i) {
            ParentBeforeKeep(a, b, i);
          } else {
            assert a[i].parentId == Some(parentId) && a[i].level == level;
          }
        } else {
          assert items[i] == b[i - |a|];
          if ParentBefore(b, i - |a|) {
            ParentBeforeShift(a, b, i - |a|);
          } else {
            assert b[i - |a|].parentId == Some(parentId) && b[i - |a|].level == level;
          }
        }
      }
    }
  }

  /** In a coherent tree, the parent identifier recorded with a shown node
      is the one `drawConnections` derives from its path. */
  lemma {:induction false} VisitParentIds(v: View, n: Node, level: nat, parentId: Option<string>, index: nat)
    requires Coherent(n)
    ensures forall it | it in Visit(v, n, level, parentId, index) && it.node.path != "" ::
      || (it.parentId.Some? && ParentId(it.node.path) == it.parentId.value)
      || (it.node == n && it.parentId == parentId)
    decreases n
  {
    if Descends(v, n, level) {
      VisitKidsParentIds(v, n, n.children, level + 1, 0);
    }
  }

  lemma {:induction false} VisitKidsParentIds(v: View, p: Node, cs: seq<Node>, level: nat, from: nat)
    requires forall i | 0 <= i < |cs| :: ChildOf(p.path, cs[i]) && Coherent(cs[i])
    ensures forall it | it in VisitKids(v, cs, level, Id(p), from) && it.node.path != "" ::
      it.parentId.Some? && ParentId(it.node.path) == it.parentId.value
    decreases cs
  {
    if cs != [] {
      VisitParentIds(v, cs[0], level, Some(Id(p)), from);
      VisitKidsParentIds(v, p, cs[1..], level, from + 1);
      if cs[0].path != "" {
        ParentIdOfChild(p, cs[0]);
      }
    }
  }

  /** Some item before the `i`-th lies one level above it. */
  predicate AboveBefore(items: seq<Item>, i: nat)
    requires i < |items|
  {
    exists j | 0 <= j < i :: items[j].level + 1 == items[i].level
  }

  /** Every item below level `base` follows an item one level up. */
  predicate LevelsBefore(items: seq<Item>, base: nat)
  {
    forall i {:trigger AboveBefore(items, i)} | 0 <= i < |items| && items[i].level > base :: AboveBefore(items, i)
  }

  /** The walk reaches a level only through a shown node of the level
      above it. */
  lemma {:induction false} VisitLevels(v: View, n: Node, level: nat, parentId: Option<string>, index: nat)
    ensures LevelsBefore(Visit(v, n, level, parentId, index), level)
    decreases n, 1
  {
    var self, kids := Own(v, n, level, parentId, index), Below(v, n, level);
    assert Visit(v, n, level, parentId, index) == self + kids;
    if Descends(v, n, level) {
      VisitKidsLevels(v, n.children, level + 1, Id(n), 0);
      LevelsBeforeLift(self[0], kids, level);
      assert self == [self[0]];
    } else {
      assert self + kids == self;
    }
  }

  lemma {:induction false} VisitKidsLevels(v: View, cs: seq<Node>, level: nat, parentId: string, from: nat)
    ensures LevelsBefore(VisitKids(v, cs, level, parentId, from), level)
    decreases cs, 0
  {
    if cs != [] {
      VisitKidsCons(v, cs, level, parentId, from);
      VisitLevels(v, cs[0], level, Some(parentId), from);
      VisitKidsLevels(v, cs[1..], level, parentId, from + 1);
      LevelsBeforeAppend(Visit(v, cs[0], level, Some(parentId), from), VisitKids(v, cs[1..], level, parentId, from + 1), level);
    }
  }

  lemma LevelsBeforeAppend(a: seq<Item>, b: seq<Item>, base: nat)
    requires LevelsBefore(a, base) && LevelsBefore(b, base)
    ensures LevelsBefore(a + b, base)
  {
    var ab := a + b;
    forall i | 0 <= i < |ab| && ab[i].level > base ensures AboveBefore(ab, i) {
      if i < |a| {
        assert ab[i] == a[i] && AboveBefore(a, i);
        var j :| 0 <= j < i && a[j].level + 1 == a[i].level;
        assert ab[j] == a[j];
      } else {
        var i' := i - |a|;
        assert ab[i] == b[i'] && AboveBefore(b, i');
        var j :| 0 <= j < i' && b[j].level + 1 == b[i'].level;
        assert ab[|a| + j] == b[j];
      }
    }
  }

  lemma LevelsBeforeLift(self: Item, kids: seq<Item>, base: nat)
    requires self.level == base && LevelsBefore(kids, base + 1)
    ensures LevelsBefore([self] + kids, base)
  {
    var all := [self] + kids;
    forall i | 0 <= i < |all| && all[i].level > base ensures AboveBefore(all, i) {
      assert all[0] == self && i > 0;
      var x := kids[i - 1];
      assert all[i] == x;
      if x.level == base + 1 {
        assert all[0].level + 1 == all[i].level;
      } else {
        assert AboveBefore(kids, i - 1);
        var j :| 0 <= j < i - 1 && kids[j].level + 1 == x.level;
        assert all[j + 1] == kids[j];
      }
    }
  }

  // ---------------------------------------------------------------------
  // levelNodes (app.js:232-250)

  /** `levelNodes`: a JavaScript Map from a level to the items pushed at
      that level; `order` is its key order, the order of first insertion. */
  datatype Rows = Rows(order: seq<nat>, byLevel: map<nat, seq<Item>>)

  /** The key order lists each key once, and no row is empty. */
  predicate RowsOk(r: Rows)
  {
    && (forall i | 0 <= i < |r.order| :: r.order[i] in r.byLevel)
    && (forall l | l in r.byLevel :: l in r.order && r.byLevel[l] != [])
    && (forall i, j | 0 <= i < j < |r.order| :: r.order[i] != r.order[j])
  }

  /** The row of a level; a missing key reads as no items. */
  function Row(r: Rows, level: nat): seq<Item>
  {
    if level in r.byLevel then r.byLevel[level] else []
  }

  /** `if (!levelNodes.has(level)) levelNodes.set(level, []);
       levelNodes.get(level).push(item)`. */
  function PushItem(r: Rows, it: Item): Rows
  {
    if it.level in r.byLevel then Rows(r.order, r.byLevel[it.level := r.byLevel[it.level] + [it]])
    else Rows(r.order + [it.level], r.byLevel[it.level := [it]])
  }

  /** Pushing a sequence of items one after the other. */
  function PushAll(r: Rows, items: seq<Item>): Rows
    decreases items
  {
    if items == [] then r else PushAll(PushItem(r, items[0]), items[1..])
  }

  /** The items of a given level, in order. */
  function LevelItems(items: seq<Item>, level: nat): (row: seq<Item>)
    ensures forall it | it in row :: it in items && it.level == level
  {
    if items == [] then []
    else (if items[0].level == level then [items[0]] else []) + LevelItems(items[1..], level)
  }

  lemma {:induction false} LevelItemsAppend(a: seq<Item>, b: seq<Item>, level: nat)
    ensures LevelItems(a + b, level) == LevelItems(a, level) + LevelItems(b, level)
  {
    if a == [] {
      assert a + b == b;
    } else {
      assert (a + b)[1..] == a[1..] + b;
      LevelItemsAppend(a[1..], b, level);
    }
  }

  lemma {:induction false} LevelItemsComplete(items: seq<Item>, i: nat)
    requires i < |items|
    ensures items[i] in LevelItems(items, items[i].level)
  {
    if i > 0 {
      LevelItemsComplete(items[1..], i - 1);
    }
  }

  lemma {:induction false} PushAllAppend(r: Rows, a: seq<Item>, b: seq<Item>)
    ensures PushAll(r, a + b) == PushAll(PushAll(r, a), b)
    decreases a
  {
    if a == [] {
      assert a + b == b;
    } else {
      assert (a + b)[1..] == a[1..] + b;
      PushAllAppend(PushItem(r, a[0]), a[1..], b);
    }
  }

  /** Pushing one item appends it to its level's row. */
  lemma PushItemRows(r: Rows, it: Item)
    requires RowsOk(r)
    ensures RowsOk(PushItem(r, it))
    ensures forall level: nat :: Row(PushItem(r, it), level) == Row(r, level) + (if it.level == level then [it] else [])
  {
    var r' := PushItem(r, it);
    if it.level !in r.byLevel {
      forall i, j | 0 <= i < j < |r'.order| ensures r'.order[i] != r'.order[j] {
        if j == |r.order| {
          assert r'.order[i] == r.order[i];
        }
      }
    }
  }

  /** Pushing items appends, to every level's row, the items of that level,
      and keeps the key order well formed. */
  lemma {:induction false} PushAllRows(r: Rows, items: seq<Item>)
    requires RowsOk(r)
    ensures RowsOk(PushAll(r, items))
    ensures forall level: nat :: Row(PushAll(r, items), level) == Row(r, level) + LevelItems(items, level)
    decreases items
  {
    if items != [] {
      PushItemRows(r, items[0]);
      PushAllRows(PushItem(r, items[0]), items[1..]);
    }
  }

  /** The keys of `levelNodes` are the levels 0, 1, 2, ... in this order. */
  predicate LevelsInOrder(r: Rows)
  {
    forall k | 0 <= k < |r.order| :: r.order[k] == k
  }

  /** Pushing, from no rows, items that reach each level from the one
      above it creates the levels in increasing order. */
  lemma {:induction false} PushLevelsInOrder(items: seq<Item>, i: nat)
    requires LevelsBefore(items, 0) && i <= |items|
    ensures RowsOk(PushAll(Rows([], map[]), items[..i]))
    ensures LevelsInOrder(PushAll(Rows([], map[]), items[..i]))
  {
    if i == 0 {
      assert items[..0] == [];
    } else {
      var pre, it := items[..i - 1], items[i - 1];
      PushLevelsInOrder(items, i - 1);
      var r := PushAll(Rows([], map[]), pre);
      assert items[..i] == pre + [it];
      PushAllAppend(Rows([], map[]), pre, [it]);
      assert PushAll(r, [it]) == PushItem(r, it) by {
        assert [it][1..] == [];
      }
      PushItemRows(r, it);
      if it.level !in r.byLevel {
        NewLevelNext(items, i - 1, r);
      }
    }
  }

  /** With levels in order, the keys are exactly the levels below the
      number of keys. */
  lemma LevelKeys(r: Rows)
    requires RowsOk(r) && LevelsInOrder(r)
    ensures forall l: nat :: l in r.byLevel <==> l < |r.order|
  {
    forall l: nat ensures l in r.byLevel <==> l < |r.order| {
      if l < |r.order| {
        assert r.order[l] == l;
      }
      if l in r.byLevel {
        var k :| 0 <= k < |r.order| && r.order[k] == l;
      }
    }
  }

  /** A level first reached by the `i`-th item is the next one. */
  lemma NewLevelNext(items: seq<Item>, i: nat, r: Rows)
    requires LevelsBefore(items, 0) && i < |items|
    requires r == PushAll(Rows([], map[]), items[..i]) && RowsOk(r) && LevelsInOrder(r)
    requires items[i].level !in r.byLevel
    ensures items[i].level == |r.order|
  {
    var L := items[i].level;
    LevelKeys(r);
    if L > 0 {
      assert AboveBefore(items, i);
      var j :| 0 <= j < i && items[j].level + 1 == L;
      LevelSeen(items[..i], j, r);
    }
  }

  /** The level of a pushed item is a key. */
  lemma LevelSeen(pre: seq<Item>, j: nat, r: Rows)
    requires j < |pre| && r == PushAll(Rows([], map[]), pre)
    ensures pre[j].level in r.byLevel
  {
    var L := pre[j].level;
    PushAllRows(Rows([], map[]), pre);
    assert Row(r, L) == [] + LevelItems(pre, L);
    LevelItemsComplete(pre, j);
  }

  /** `collectNodes(node, level, parentId, index)` (app.js:235-262): pushes
      the shown nodes of the subtree into `levelNodes`, in the order of
      `Visit`. */
  method CollectNodes(v: View, n: Node, level: nat, parentId: Option<string>, index: nat, rows: Rows)
    returns (out: Rows)
    ensures out == PushAll(rows, Visit(v, n, level, parentId, index))
    decreases n, 1
  {
    var id := if n.path == "" then "root" else n.path;
    var matchesSearch := v.query == "" || Contains(Lower(n.name), v.query);
    var isVisible := matchesSearch || (id in v.expanded && level < v.maxDepth);
    out := rows;
    if isVisible {
      out := PushItem(out, Item(n, id, parentId, index, level));
    }
    ghost var self := if isVisible then [Item(n, id, parentId, index, level)] else [];
    assert out == PushAll(rows, self);
    assert id == Id(n) && isVisible == Shown(v, n, level);
    if id in v.expanded && n.Dir? && level < v.maxDepth {
      ghost var kids := VisitKids(v, n.children, level + 1, id, 0);
      assert Visit(v, n, level, parentId, index) == self + kids;
      out := CollectChildren(v, n.children, level + 1, id, out);
      PushAllAppend(rows, self, kids);
    } else {
      assert Visit(v, n, level, parentId, index) == self + [];
      assert self + [] == self;
    }
  }

  /** The loop over the children at app.js:253-259. */
  method CollectChildren(v: View, cs: seq<Node>, level: nat, id: string, rows: Rows)
    returns (out: Rows)
    ensures out == PushAll(rows, VisitKids(v, cs, level, id, 0))
    decreases cs, 0
  {
    out := rows;
    var childIndex := 0;
    while childIndex < |cs|
      invariant childIndex <= |cs|
      invariant out == PushAll(rows, VisitKids(v, cs[..childIndex], level, id, 0))
    {
      VisitKidsSnoc(v, cs, level, id, childIndex);
      PushAllAppend(rows, VisitKids(v, cs[..childIndex], level, id, 0),
                    Visit(v, cs[childIndex], level, Some(id), childIndex));
      out := CollectNodes(v, cs[childIndex], level, Some(id), childIndex, out);
      childIndex := childIndex + 1;
    }
    assert cs[..|cs|] == cs;
  }

  // ---------------------------------------------------------------------
  // positions (app.js:265-275)

  /** The container width and the spacing constants `render` passes. */
  datatype Dims = Dims(containerWidth: real, nodeWidth: real, verticalSpacing: real, horizontalSpacing: real)

  /** A `layout` entry: the node, its top-left corner and its level. */
  datatype Pos = Pos(node: Node, x: real, y: real, level: nat)

  /** The left edge of the `k`-th of `count` boxes of a row centred in the
      container. */
  function RowX(d: Dims, count: nat, k: nat): real
  {
    RowStart(d, count) + k as real * (d.nodeWidth + d.horizontalSpacing)
  }

  /** The left edge of the first box of a row of `count` boxes. */
  function RowStart(d: Dims, count: nat): real
  {
    (d.containerWidth - (count as real * (d.nodeWidth + d.horizontalSpacing) - d.horizontalSpacing)) / 2.0
  }

  /** The top edge of the boxes of a level. */
  function RowY(d: Dims, level: nat): real
  {
    level as real * d.verticalSpacing + 50.0
  }

  /** Boxes of a row are one box width plus the horizontal spacing apart,
      and the row is centred: the space left of the first box equals the
      space right of the last. */
  lemma RowCentred(d: Dims, count: nat, k: nat)
    requires k < count
    ensures RowX(d, count, k + 1) - RowX(d, count, k) == d.nodeWidth + d.horizontalSpacing
    ensures RowX(d, count, 0) == d.containerWidth - (RowX(d, count, count - 1) + d.nodeWidth)
  {
    var step := d.nodeWidth + d.horizontalSpacing;
    assert (count - 1) as real * step == count as real * step - step;
    assert (k + 1) as real * step == k as real * step + step;
  }

  /** Three boxes 180 wide and 40 apart in a container 1000 wide sit at
      190, 410 and 630. */
  lemma RowExample(d: Dims)
    requires d == Dims(1000.0, 180.0, 120.0, 40.0)
    ensures RowX(d, 3, 0) == 190.0 && RowX(d, 3, 1) == 410.0 && RowX(d, 3, 2) == 630.0
    ensures RowY(d, 1) == 170.0
  {
  }

  /** The first `n` boxes of a row written into `layout`. */
  function PlaceRow(layout: map<string, Pos>, row: seq<Item>, level: nat, d: Dims, n: nat): map<string, Pos>
    requires n <= |row|
  {
    if n == 0 then layout
    else PlaceRow(layout, row, level, d, n - 1)[row[n - 1].id := Pos(row[n - 1].node, RowX(d, |row|, n - 1), RowY(d, level), level)]
  }

  /** The rows of the first `n` levels, in key order, written into `layout`. */
  function PlaceLevels(layout: map<string, Pos>, r: Rows, d: Dims, n: nat): map<string, Pos>
    requires RowsOk(r) && n <= |r.order|
  {
    if n == 0 then layout
    else
      var level := r.order[n - 1];
      PlaceRow(PlaceLevels(layout, r, d, n - 1), r.byLevel[level], level, d, |r.byLevel[level]|)
  }

  /** The items `calculateLayout` collects for a root. */
  function Collected(v: View, root: Node): seq<Item>
  {
    Visit(v, root, 0, None, 0)
  }

  /** The map `calculateLayout(root, ...)` returns. */
  function LayoutOf(v: View, root: Node, d: Dims): map<string, Pos>
  {
    var r := PushAll(Rows([], map[]), Collected(v, root));
    PushAllRows(Rows([], map[]), Collected(v, root));
    PlaceLevels(map[], r, d, |r.order|)
  }

  /** `calculateLayout(root, containerWidth, nodeWidth, verticalSpacing,
      horizontalSpacing)` (app.js:229-278). */
  method CalculateLayout(v: View, root: Node, d: Dims) returns (layout: map<string, Pos>)
    ensures layout == LayoutOf(v, root, d)
  {
    var levelNodes := CollectNodes(v, root, 0, None, 0, Rows([], map[]));
    PushAllRows(Rows([], map[]), Collected(v, root));
    layout := map[];
    for li := 0 to |levelNodes.order|
      invariant layout == PlaceLevels(map[], levelNodes, d, li)
    {
      var level := levelNodes.order[li];
      layout := PlaceNodes(layout, levelNodes.byLevel[level], level, d);
    }
  }

  /** The body of the per-level callback of `calculateLayout`
      (app.js:266-274): places the row's boxes left to right. */
  method PlaceNodes(layout0: map<string, Pos>, nodes: seq<Item>, level: nat, d: Dims) returns (layout: map<string, Pos>)
    ensures layout == PlaceRow(layout0, nodes, level, d, |nodes|)
  {
    var totalWidth := |nodes| as real * (d.nodeWidth + d.horizontalSpacing) - d.horizontalSpacing;
    var startX := (d.containerWidth - totalWidth) / 2.0;
    layout := layout0;
    for i := 0 to |nodes|
      invariant layout == PlaceRow(layout0, nodes, level, d, i)
    {
      var x := startX + i as real * (d.nodeWidth + d.horizontalSpacing);
      var y := level as real * d.verticalSpacing + 50.0;
      assert startX == RowStart(d, |nodes|);
      assert x == RowX(d, |nodes|, i) by {
        assert RowX(d, |nodes|, i) == RowStart(d, |nodes|) + i as real * (d.nodeWidth + d.horizontalSpacing);
      }
      assert y == RowY(d, level);
      layout := layout[nodes[i].id := Pos(nodes[i].node, x, y, level)];
    }
  }

  // ---------------------------------------------------------------------
  // what the layout holds

  /** The identifiers written by the first `n` boxes of a row. */
  lemma {:induction false} PlaceRowKeys(layout: map<string, Pos>, row: seq<Item>, level: nat, d: Dims, n: nat)
    requires n <= |row|
    ensures PlaceRow(layout, row, level, d, n).Keys == layout.Keys + set x | x in row[..n] :: x.id
  {
    if n > 0 {
      PlaceRowKeys(layout, row, level, d, n - 1);
      assert row[..n] == row[..n - 1] + [row[n - 1]];
    }
  }

  /** An identifier no box of the row carries keeps its entry. */
  lemma {:induction false} PlaceRowOther(layout: map<string, Pos>, row: seq<Item>, level: nat, d: Dims, n: nat, id: string)
    requires n <= |row|
    requires forall k | 0 <= k < n :: row[k].id != id
    ensures id in PlaceRow(layout, row, level, d, n) <==> id in layout
    ensures id in layout ==> PlaceRow(layout, row, level, d, n)[id] == layout[id]
  {
    if n > 0 {
      PlaceRowOther(layout, row, level, d, n - 1, id);
    }
  }

  /** The `k`-th box of a row, when no later box has its identifier, sits
      at the `k`-th slot of the centred row. */
  lemma {:induction false} PlaceRowAt(layout: map<string, Pos>, row: seq<Item>, level: nat, d: Dims, n: nat, k: nat)
    requires k < n <= |row|
    requires forall j | k < j < n :: row[j].id != row[k].id
    ensures row[k].id in PlaceRow(layout, row, level, d, n)
    ensures PlaceRow(layout, row, level, d, n)[row[k].id] == Pos(row[k].node, RowX(d, |row|, k), RowY(d, level), level)
  {
    if k < n - 1 {
      PlaceRowAt(layout, row, level, d, n - 1, k);
    }
  }

  /** The identifiers of the rows of the first `n` levels. */
  function RowIds(r: Rows, n: nat): set<string>
    requires RowsOk(r) && n <= |r.order|
  {
    if n == 0 then {} else RowIds(r, n - 1) + set x | x in r.byLevel[r.order[n - 1]] :: x.id
  }

  lemma {:induction false} PlaceLevelsKeys(layout: map<string, Pos>, r: Rows, d: Dims, n: nat)
    requires RowsOk(r) && n <= |r.order|
    ensures PlaceLevels(layout, r, d, n).Keys == layout.Keys + RowIds(r, n)
  {
    if n > 0 {
      PlaceLevelsKeys(layout, r, d, n - 1);
      var row := r.byLevel[r.order[n - 1]];
      PlaceRowKeys(PlaceLevels(layout, r, d, n - 1), row, r.order[n - 1], d, |row|);
      assert row[..|row|] == row;
    }
  }

  lemma {:induction false} RowIdsHas(r: Rows, n: nat, p: nat, x: Item)
    requires RowsOk(r) && p < n <= |r.order|
    requires x in r.byLevel[r.order[p]]
    ensures x.id in RowIds(r, n)
  {
    if p < n - 1 {
      RowIdsHas(r, n - 1, p, x);
    }
  }

  lemma {:induction false} RowIdsFrom(r: Rows, n: nat, id: string)
    requires RowsOk(r) && n <= |r.order|
    requires id in RowIds(r, n)
    ensures exists p, x :: 0 <= p < n && x in r.byLevel[r.order[p]] && x.id == id
  {
    var row := r.byLevel[r.order[n - 1]];
    if id !in set x | x in row :: x.id {
      RowIdsFrom(r, n - 1, id);
    } else {
      var x :| x in row && x.id == id;
      assert 0 <= n - 1 < n && x in r.byLevel[r.order[n - 1]] && x.id == id;
    }
  }

  /** The box at slot `k` of the row of the `p`-th level keeps its place
      when no box of a later row, and no later box of its own row, has its
      identifier. */
  lemma {:induction false} PlaceLevelsAt(layout: map<string, Pos>, r: Rows, d: Dims, n: nat, p: nat, k: nat)
    requires RowsOk(r) && p < n <= |r.order|
    requires k < |r.byLevel[r.order[p]]|
    requires forall j | k < j < |r.byLevel[r.order[p]]| :: r.byLevel[r.order[p]][j].id != r.byLevel[r.order[p]][k].id
    requires forall q, x | p < q < n && x in r.byLevel[r.order[q]] :: x.id != r.byLevel[r.order[p]][k].id
    ensures r.byLevel[r.order[p]][k].id in PlaceLevels(layout, r, d, n)
    ensures var row := r.byLevel[r.order[p]];
      PlaceLevels(layout, r, d, n)[row[k].id] == Pos(row[k].node, RowX(d, |row|, k), RowY(d, r.order[p]), r.order[p])
  {
    var row := r.byLevel[r.order[p]];
    var last := r.byLevel[r.order[n - 1]];
    if p == n - 1 {
      PlaceRowAt(PlaceLevels(layout, r, d, n - 1), row, r.order[p], d, |row|, k);
    } else {
      PlaceLevelsAt(layout, r, d, n - 1, p, k);
      PlaceLevelsKeys(layout, r, d, n - 1);
      RowIdsHas(r, n - 1, p, row[k]);
      forall j | 0 <= j < |last| ensures last[j].id != row[k].id {
        assert last[j] in r.byLevel[r.order[n - 1]];
      }
      PlaceRowOther(PlaceLevels(layout, r, d, n - 1), last, r.order[n - 1], d, |last|, row[k].id);
    }
  }

  /** No two collected items share an identifier. */
  predicate IdsDistinct(items: seq<Item>)
  {
    forall i, j | 0 <= i < j < |items| :: items[i].id != items[j].id
  }

  /** `layout` has an entry for exactly the identifiers of the shown nodes. */
  lemma LayoutKeys(v: View, root: Node, d: Dims)
    ensures LayoutOf(v, root, d).Keys == set it | it in Collected(v, root) :: it.id
  {
    var items := Collected(v, root);
    var r := PushAll(Rows([], map[]), items);
    PushAllRows(Rows([], map[]), items);
    PlaceLevelsKeys(map[], r, d, |r.order|);
    RowIdsOfItems(r, items);
  }

  /** Rows holding, level by level, the items of `items` carry exactly
      their identifiers. */
  lemma RowIdsOfItems(r: Rows, items: seq<Item>)
    requires RowsOk(r)
    requires forall level: nat :: Row(r, level) == LevelItems(items, level)
    ensures RowIds(r, |r.order|) == set it | it in items :: it.id
  {
    forall id | id in RowIds(r, |r.order|) ensures exists it | it in items :: it.id == id {
      RowIdsFrom(r, |r.order|, id);
      var p, x :| 0 <= p < |r.order| && x in r.byLevel[r.order[p]] && x.id == id;
      assert Row(r, r.order[p]) == LevelItems(items, r.order[p]);
    }
    forall it | it in items ensures it.id in RowIds(r, |r.order|) {
      ItemInRows(r, items, it);
    }
  }

  lemma ItemInRows(r: Rows, items: seq<Item>, it: Item)
    requires RowsOk(r)
    requires forall level: nat :: Row(r, level) == LevelItems(items, level)
    requires it in items
    ensures it.id in RowIds(r, |r.order|)
  {
    var i :| 0 <= i < |items| && items[i] == it;
    LevelItemsComplete(items, i);
    assert Row(r, it.level) == LevelItems(items, it.level);
    var p :| 0 <= p < |r.order| && r.order[p] == it.level;
    RowIdsHas(r, |r.order|, p, it);
  }

  /** No item after the `i`-th and of its level has its identifier. */
  predicate LastInRow(items: seq<Item>, i: nat)
    requires i < |items|
  {
    forall j | i < j < |items| && items[j].level == items[i].level :: items[j].id != items[i].id
  }

  /** The `i`-th item is the last one with its identifier in the order the
      boxes are placed: level by level, and left to right within a level. */
  predicate LastPlaced(items: seq<Item>, i: nat)
    requires i < |items|
  {
    forall j | 0 <= j < |items| && items[j].id == items[i].id ::
      items[j].level < items[i].level || (items[j].level == items[i].level && j <= i)
  }

  /** Within its own row, the `i`-th item sits at slot `k`, the number of
      items of its level before it, and, when no later item of its level
      has its identifier, no later item of the row has it. */
  lemma SlotInRow(items: seq<Item>, i: nat) returns (k: nat)
    requires i < |items| && LastInRow(items, i)
    ensures k == |LevelItems(items[..i], items[i].level)|
    ensures k < |LevelItems(items, items[i].level)|
    ensures LevelItems(items, items[i].level)[k] == items[i]
    ensures forall j | k < j < |LevelItems(items, items[i].level)| ::
      LevelItems(items, items[i].level)[j].id != items[i].id
  {
    var it := items[i];
    var L := it.level;
    var pre, post := items[..i], items[i + 1..];
    k := |LevelItems(pre, L)|;
    assert items == pre + ([it] + post);
    LevelItemsAppend(pre, [it] + post, L);
    LevelItemsAppend([it], post, L);
    assert LevelItems([it], L) == [it];
    LaterIdsDiffer(items, i);
    RowTail(LevelItems(items, L), LevelItems(pre, L), it, LevelItems(post, L));
  }

  /** No item of its level after the `i`-th has its identifier. */
  lemma LaterIdsDiffer(items: seq<Item>, i: nat)
    requires i < |items| && LastInRow(items, i)
    ensures forall x | x in LevelItems(items[i + 1..], items[i].level) :: x.id != items[i].id
  {
    forall x | x in LevelItems(items[i + 1..], items[i].level) ensures x.id != items[i].id {
      var j' :| 0 <= j' < |items[i + 1..]| && items[i + 1..][j'] == x;
      assert items[i + 1 + j'] == x;
    }
  }

  lemma RowTail(row: seq<Item>, a: seq<Item>, it: Item, b: seq<Item>)
    requires row == a + [it] + b
    requires forall x | x in b :: x.id != it.id
    ensures |a| < |row| && row[|a|] == it
    ensures forall j | |a| < j < |row| :: row[j].id != it.id
  {
    forall j | |a| < j < |row| ensures row[j].id != it.id {
      assert row[j] == b[j - |a| - 1];
    }
  }

  /** Where a shown node lands: `layout.set` overwrites, so the entry of an
      identifier is the slot of its last item in placing order. When the
      `i`-th collected item, of level `L`, is that last item, its
      identifier sits at slot `k` of the centred row of the items of level
      `L`, `k` being the number of items of level `L` collected before it,
      at the height of level `L`. */
  lemma LayoutLast(v: View, root: Node, d: Dims, i: nat)
    requires i < |Collected(v, root)| && LastPlaced(Collected(v, root), i)
    ensures Collected(v, root)[i].id in LayoutOf(v, root, d)
    ensures var items := Collected(v, root);
      var L := items[i].level;
      LayoutOf(v, root, d)[items[i].id]
        == Pos(items[i].node, RowX(d, |LevelItems(items, L)|, |LevelItems(items[..i], L)|), RowY(d, L), L)
  {
    var items := Collected(v, root);
    var r := PushAll(Rows([], map[]), items);
    PushAllRows(Rows([], map[]), items);
    VisitLevels(v, root, 0, None, 0);
    PushLevelsInOrder(items, |items|);
    assert items[..|items|] == items;
    var k := SlotInRow(items, i);
    PlacedItem(r, items, d, i, k);
  }

  /** With distinct identifiers every collected item is the last with its
      identifier, so each one is placed at its own slot. */
  lemma LayoutAt(v: View, root: Node, d: Dims, i: nat)
    requires IdsDistinct(Collected(v, root)) && i < |Collected(v, root)|
    ensures Collected(v, root)[i].id in LayoutOf(v, root, d)
    ensures var items := Collected(v, root);
      var L := items[i].level;
      LayoutOf(v, root, d)[items[i].id]
        == Pos(items[i].node, RowX(d, |LevelItems(items, L)|, |LevelItems(items[..i], L)|), RowY(d, L), L)
  {
    var items := Collected(v, root);
    assert LastPlaced(items, i);
    LayoutLast(v, root, d, i);
  }

  /** Every entry of the layout is the slot of the last item with its
      identifier. */
  lemma LayoutEntry(v: View, root: Node, d: Dims, id: string)
    requires id in LayoutOf(v, root, d)
    ensures exists i | 0 <= i < |Collected(v, root)| ::
      && Collected(v, root)[i].id == id && LastPlaced(Collected(v, root), i)
      && var items := Collected(v, root);
        var L := items[i].level;
        LayoutOf(v, root, d)[id]
          == Pos(items[i].node, RowX(d, |LevelItems(items, L)|, |LevelItems(items[..i], L)|), RowY(d, L), L)
  {
    var items := Collected(v, root);
    LayoutKeys(v, root, d);
    var it :| it in items && it.id == id;
    var i := LastWith(items, id);
    LayoutLast(v, root, d, i);
  }

  /** The last item with identifier `id` in placing order. */
  lemma LastWith(items: seq<Item>, id: string) returns (i: nat)
    requires exists it | it in items :: it.id == id
    ensures i < |items| && items[i].id == id && LastPlaced(items, i)
  {
    var c :| 0 <= c < |items| && items[c].id == id;
    i := c;
    var j := 0;
    while j < |items|
      invariant j <= |items| && i < |items| && items[i].id == id
      invariant forall m | 0 <= m < j && items[m].id == id ::
        items[m].level < items[i].level || (items[m].level == items[i].level && m <= i)
    {
      if items[j].id == id && (items[j].level > items[i].level || (items[j].level == items[i].level && j > i)) {
        i := j;
      }
      j := j + 1;
    }
  }

  /** The `i`-th item, at slot `k` of its level's row and last with its
      identifier in placing order, is placed there by rows holding, level
      by level in increasing order, the items of `items`. */
  lemma PlacedItem(r: Rows, items: seq<Item>, d: Dims, i: nat, k: nat)
    requires RowsOk(r) && LevelsInOrder(r)
    requires forall level: nat :: Row(r, level) == LevelItems(items, level)
    requires i < |items| && LastPlaced(items, i)
    requires k < |LevelItems(items, items[i].level)| && LevelItems(items, items[i].level)[k] == items[i]
    requires forall j | k < j < |LevelItems(items, items[i].level)| ::
      LevelItems(items, items[i].level)[j].id != items[i].id
    ensures items[i].id in PlaceLevels(map[], r, d, |r.order|)
    ensures PlaceLevels(map[], r, d, |r.order|)[items[i].id]
      == Pos(items[i].node, RowX(d, |LevelItems(items, items[i].level)|, k), RowY(d, items[i].level), items[i].level)
  {
    var it := items[i];
    var L := it.level;
    assert Row(r, L) == LevelItems(items, L);
    LevelKeys(r);
    assert r.order[L] == L;
    forall q, x | L < q < |r.order| && x in r.byLevel[r.order[q]] ensures x.id != it.id {
      assert r.order[q] == q;
      assert Row(r, q) == LevelItems(items, q);
      var j :| 0 <= j < |items| && items[j] == x;
    }
    PlaceLevelsAt(map[], r, d, |r.order|, L, k);
  }

  // ---------------------------------------------------------------------
  // examples

  /** The drawing constants of `render` (app.js:205-208) in an 800-wide
      container. */
  const Render800 := Dims(800.0, 180.0, 120.0, 40.0)

  /** The repository of the layout unit test (tests/unit/repoDiagram.test.js:376-385):
      with only the root expanded, the root is centred on the first row and
      its two children share the second. */
  lemma ExampleLayout()
    ensures var f := File("file1.js", "file1.js", 100, "");
      var d1 := Dir("dir1", "dir1", 0, "", []);
      var root := Dir("test", "", 0, "", [f, d1]);
      LayoutOf(View({"root"}, 2, ""), root, Render800)
        == map["root" := Pos(root, 310.0, 50.0, 0), "file1.js" := Pos(f, 200.0, 170.0, 1), "dir1" := Pos(d1, 420.0, 170.0, 1)]
  {
    var f := File("file1.js", "file1.js", 100, "");
    var d1 := Dir("dir1", "dir1", 0, "", []);
    var root := Dir("test", "", 0, "", [f, d1]);
    var v := View({"root"}, 2, "");
    var a, b, c := Item(root, "root", None, 0, 0), Item(f, "file1.js", Some("root"), 0, 1), Item(d1, "dir1", Some("root"), 1, 1);
    ExampleRows(v, f, d1, root);
    var r := PushAll(Rows([], map[]), Collected(v, root));
    ExamplePlace(r, a, b, c);
  }

  /** The rows of the layout unit test: the root alone, then its two
      children. */
  lemma ExampleRows(v: View, f: Node, d1: Node, root: Node)
    requires v == View({"root"}, 2, "")
    requires f == File("file1.js", "file1.js", 100, "") && d1 == Dir("dir1", "dir1", 0, "", [])
    requires root == Dir("test", "", 0, "", [f, d1])
    ensures PushAll(Rows([], map[]), Collected(v, root))
      == Rows([0, 1], map[0 := [Item(root, "root", None, 0, 0)],
                          1 := [Item(f, "file1.js", Some("root"), 0, 1), Item(d1, "dir1", Some("root"), 1, 1)]])
  {
    var kids := VisitKids(v, [f, d1], 1, "root", 0);
    assert [f, d1][1..] == [d1];
    assert Visit(v, f, 1, Some("root"), 0) == [Item(f, "file1.js", Some("root"), 0, 1)];
    assert Visit(v, d1, 1, Some("root"), 1) == [Item(d1, "dir1", Some("root"), 1, 1)];
    assert VisitKids(v, [d1], 1, "root", 1) == [Item(d1, "dir1", Some("root"), 1, 1)];
    assert kids == [Item(f, "file1.js", Some("root"), 0, 1), Item(d1, "dir1", Some("root"), 1, 1)];
    var items := Collected(v, root);
    assert items == [Item(root, "root", None, 0, 0)] + kids;
    var r0 := PushItem(Rows([], map[]), items[0]);
    assert r0 == Rows([0], map[0 := [items[0]]]);
    var r1 := PushItem(r0, kids[0]);
    assert r1 == Rows([0, 1], map[0 := [items[0]], 1 := [kids[0]]]);
    var r2 := PushItem(r1, kids[1]);
    assert r2 == Rows([0, 1], map[0 := [items[0]], 1 := kids]);
    assert items[1..] == kids && kids[1..] == [kids[1]];
    assert PushAll(r2, []) == r2;
    assert PushAll(r1, kids[1..]) == r2;
    assert PushAll(r0, kids) == r2;
  }

  /** The boxes of those rows in an 800-wide container. */
  lemma ExamplePlace(r: Rows, a: Item, b: Item, c: Item)
    requires r == Rows([0, 1], map[0 := [a], 1 := [b, c]])
    requires a.id == "root" && b.id == "file1.js" && c.id == "dir1"
    ensures RowsOk(r)
    ensures PlaceLevels(map[], r, Render800, |r.order|)
      == map["root" := Pos(a.node, 310.0, 50.0, 0), "file1.js" := Pos(b.node, 200.0, 170.0, 1), "dir1" := Pos(c.node, 420.0, 170.0, 1)]
  {
    var first := PlaceLevels(map[], r, Render800, 1);
    assert r.order[0] == 0 && r.byLevel[0] == [a] && r.byLevel[1] == [b, c];
    assert RowX(Render800, 1, 0) == 310.0 && RowY(Render800, 0) == 50.0;
    assert PlaceLevels(map[], r, Render800, 0) == map[];
    assert first == PlaceRow(map[], [a], 0, Render800, 1);
    assert PlaceRow(map[], [a], 0, Render800, 0) == map[];
    assert first == map["root" := Pos(a.node, 310.0, 50.0, 0)];
    assert RowX(Render800, 2, 0) == 200.0 && RowX(Render800, 2, 1) == 420.0 && RowY(Render800, 1) == 170.0;
    assert PlaceRow(first, [b, c], 1, Render800, 0) == first;
    var one := PlaceRow(first, [b, c], 1, Render800, 1);
    assert one == first["file1.js" := Pos(b.node, 200.0, 170.0, 1)];
    assert PlaceRow(first, [b, c], 1, Render800, 2) == one["dir1" := Pos(c.node, 420.0, 170.0, 1)];
  }

  /** A top-level entry whose path is `root` gets the identifier of the
      repository root: the layout keeps one box for both, the entry's, and
      the root's box is gone. */
  lemma RootCollision()
    ensures var f := File("root", "root", 1, "");
      var root := Dir("repo", "", 1, DirMode, [f]);
      LayoutOf(View({"root"}, 2, ""), root, Render800) == map["root" := Pos(f, 310.0, 170.0, 1)]
  {
    var f := File("root", "root", 1, "");
    var root := Dir("repo", "", 1, DirMode, [f]);
    var v := View({"root"}, 2, "");
    var items := Collected(v, root);
    assert VisitKids(v, [f], 1, "root", 0) == [Item(f, "root", Some("root"), 0, 1)];
    assert items == [Item(root, "root", None, 0, 0), Item(f, "root", Some("root"), 0, 1)];
    var r0 := PushItem(Rows([], map[]), items[0]);
    assert r0 == Rows([0], map[0 := [items[0]]]);
    var r1 := PushItem(r0, items[1]);
    assert r1 == Rows([0, 1], map[0 := [items[0]], 1 := [items[1]]]);
    var r := PushAll(Rows([], map[]), items);
    assert items[1..] == [items[1]];
    assert PushAll(r1, []) == r1;
    assert PushAll(r0, items[1..]) == r1;
    assert r == Rows([0, 1], map[0 := [items[0]], 1 := [items[1]]]);
  }
}
