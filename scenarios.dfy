/** Worked listings: what `buildTree` (app.js:127-197) makes of the
    listings in tests/unit/repoDiagram.test.js, computed step by step from
    the builder's own definitions. */
module Scenarios {
  import opened Wrappers
  import opened Text
  import opened Tree
  import opened Builder

  // ---------------------------------------------------------------------
  // paths of two and three segments

  /** `d/f` splits into its two segments. */
  lemma TwoSegments(d: string, f: string)
    requires '/' !in d && '/' !in f
    ensures Split(d + "/" + f, '/') == [d, f]
    ensures DirParts(d + "/" + f) == [d] && DirPath(d + "/" + f) == d && LastSegment(d + "/" + f) == f
  {
    assert d + "/" + f == d + ['/'] + f;
    SplitSnoc(d, f, '/');
    assert Split(d, '/') == [d];
  }

  /** `a/b/f` splits into its three segments. */
  lemma ThreeSegments(a: string, b: string, f: string)
    requires '/' !in a && '/' !in b && '/' !in f
    ensures Split(a + "/" + b + "/" + f, '/') == [a, b, f]
    ensures DirParts(a + "/" + b + "/" + f) == [a, b]
    ensures DirPath(a + "/" + b + "/" + f) == a + "/" + b && LastSegment(a + "/" + b + "/" + f) == f
  {
    TwoSegments(a, b);
    assert a + "/" + b + "/" + f == (a + "/" + b) + ['/'] + f;
    SplitSnoc(a + "/" + b, f, '/');
    assert Join([a, b], '/') == a + ['/'] + Join([b], '/');
  }

  /** The pieces `[a, b]` reach `a`, then `a/b`. */
  lemma TwoPieces(a: string, b: string)
    requires a != ""
    ensures PathSoFar([a, b], 0) == "" && PathSoFar([a, b], 1) == a && PathSoFar([a, b], 2) == a + "/" + b
  {
    assert PathSoFar([a, b], 1) == ChildPath("", a);
  }

  /** A path with a '/' differs from every path without one. */
  lemma SlashApart(p: string, q: string, x: string)
    requires '/' !in p
    ensures p != q + "/" + x
  {
    assert (q + "/" + x)[|q|] == '/';
  }

  /** Paths whose first segments differ are different. */
  lemma FirstSegmentApart(a: string, b: string, x: string, y: string)
    requires '/' !in a && '/' !in b && a != b
    ensures a + "/" + x != b + "/" + y
  {
    if |a| < |b| {
      assert (a + "/" + x)[|a|] == '/' && (b + "/" + y)[|a|] == b[|a|] && b[|a|] in b;
    } else if |b| < |a| {
      assert (b + "/" + y)[|b|] == '/' && (a + "/" + x)[|b|] == a[|b|] && a[|b|] in a;
    } else {
      assert (a + "/" + x)[..|a|] == a && (b + "/" + y)[..|b|] == b;
    }
  }

  /** Paths that agree up to a '/' and differ after it are different. */
  lemma RestApart(a: string, x: string, y: string)
    requires x != y
    ensures a + "/" + x != a + "/" + y
  {
    assert (a + "/" + x)[|a| + 1..] == x && (a + "/" + y)[|a| + 1..] == y;
  }

  // ---------------------------------------------------------------------
  // addresses one and two levels down

  /** The root's child `i` is at `[i]`. */
  lemma AtOne(t: Node, i: nat)
    requires t.Dir? && i < |t.children|
    ensures ValidAddr(t, [i]) && At(t, [i]) == t.children[i]
  {
    var a: Addr := [i];
    assert a[0] == i && a[1..] == [];
    assert At(t, a) == At(t.children[i], []);
  }

  /** The child `j` of the root's child `i` is at `[i, j]`. */
  lemma AtTwo(t: Node, i: nat, j: nat)
    requires t.Dir? && i < |t.children| && t.children[i].Dir? && j < |t.children[i].children|
    ensures ValidAddr(t, [i, j]) && At(t, [i, j]) == t.children[i].children[j]
  {
    var a: Addr := [i, j];
    assert a[0] == i && a[1..] == [j];
    AtOne(t.children[i], j);
    assert At(t, a) == At(t.children[i], [j]);
  }

  // ---------------------------------------------------------------------
  // pushing one, two and three levels down

  /** The directory `d` after `d.size += extra; d.children.push(c)`. */
  function Grow(d: Node, extra: nat, c: Node): Node
    requires d.Dir?
  {
    d.(size := d.size + extra, children := d.children + [c])
  }

  /** Pushing under the root appends to the root's children. */
  lemma PushRoot(t: Node, m: map<string, Addr>, c: Node, extra: nat)
    requires Inv(t, m) && ChildOf("", c) && Coherent(c)
    ensures Push(t, m, [], c, extra).0 == Grow(t, extra, c)
    ensures Push(t, m, [], c, extra).1 == m[c.path := [|t.children|]]
  {
    assert At(t, []) == t;
    assert [] + [|t.children|] == [|t.children|];
  }

  /** Pushing under the root's child `i` appends to that child's children. */
  lemma PushChild(t: Node, m: map<string, Addr>, i: nat, c: Node, extra: nat)
    requires Inv(t, m) && i < |t.children| && t.children[i].Dir?
    requires ChildOf(t.children[i].path, c) && Coherent(c)
    ensures ValidAddr(t, [i]) && At(t, [i]) == t.children[i]
    ensures Push(t, m, [i], c, extra).0 == t.(children := t.children[i := Grow(t.children[i], extra, c)])
    ensures Push(t, m, [i], c, extra).1 == m[c.path := [i, |t.children[i].children|]]
  {
    var a: Addr := [i];
    AtOne(t, i);
    assert a[0] == i && a[1..] == [];
    assert AttachAt(t, a, c, extra) == t.(children := t.children[i := AttachAt(t.children[i], [], c, extra)]);
    assert a + [|t.children[i].children|] == [i, |t.children[i].children|];
  }

  /** Pushing under the child `j` of the root's child `i` appends to that
      grandchild's children. */
  lemma PushGrandchild(t: Node, m: map<string, Addr>, i: nat, j: nat, c: Node, extra: nat)
    requires Inv(t, m) && i < |t.children| && t.children[i].Dir?
    requires j < |t.children[i].children| && t.children[i].children[j].Dir?
    requires ChildOf(t.children[i].children[j].path, c) && Coherent(c)
    ensures ValidAddr(t, [i, j]) && At(t, [i, j]) == t.children[i].children[j]
    ensures Push(t, m, [i, j], c, extra).0 ==
      t.(children := t.children[i := t.children[i].(children := t.children[i].children[j :=
            Grow(t.children[i].children[j], extra, c)])])
    ensures Push(t, m, [i, j], c, extra).1 == m[c.path := [i, j, |t.children[i].children[j].children|]]
  {
    var a: Addr := [i, j];
    var k := t.children[i];
    var g := k.children[j];
    AtTwo(t, i, j);
    assert a[0] == i && a[1..] == [j] && [j][0] == j && [j][1..] == [];
    assert AttachAt(k, [j], c, extra) == k.(children := k.children[j := AttachAt(g, [], c, extra)]);
    assert AttachAt(t, a, c, extra) == t.(children := t.children[i := AttachAt(k, [j], c, extra)]);
    assert a + [|g.children|] == [i, j, |g.children|];
  }

  // ---------------------------------------------------------------------
  // the parent loop, one step at a time

  /** A step of the parent loop over a recorded path changes nothing. */
  lemma EnsuredKnown(t: Node, m: map<string, Addr>, parts: seq<string>, j: nat)
    requires Inv(t, m) && j < |parts| && PathSoFar(parts, j) in m && PathSoFar(parts, j + 1) in m
    requires forall i | 0 <= i < |parts| :: '/' !in parts[i]
    ensures EnsuredFrom(t, m, parts, j, PathSoFar(parts, j)) == EnsuredFrom(t, m, parts, j + 1, PathSoFar(parts, j + 1))
  {
  }

  /** A step of the parent loop over a missing path pushes an empty
      directory under the one reached so far. */
  lemma EnsuredPush(t: Node, m: map<string, Addr>, parts: seq<string>, j: nat, pa: Addr)
    requires Inv(t, m) && j < |parts| && PathSoFar(parts, j) in m && PathSoFar(parts, j + 1) !in m
    requires forall i | 0 <= i < |parts| :: '/' !in parts[i]
    requires m[PathSoFar(parts, j)] == pa && ValidAddr(t, pa) && At(t, pa).Dir?
    ensures ChildOf(At(t, pa).path, Dir(parts[j], PathSoFar(parts, j + 1), 0, DirMode, []))
    ensures PathSoFar(parts, j + 1) in Push(t, m, pa, Dir(parts[j], PathSoFar(parts, j + 1), 0, DirMode, []), 0).1
    ensures EnsuredFrom(t, m, parts, j, PathSoFar(parts, j)) ==
      EnsuredFrom(Push(t, m, pa, Dir(parts[j], PathSoFar(parts, j + 1), 0, DirMode, []), 0).0,
                  Push(t, m, pa, Dir(parts[j], PathSoFar(parts, j + 1), 0, DirMode, []), 0).1,
                  parts, j + 1, PathSoFar(parts, j + 1))
  {
  }

  /** The parent loop ends after the last piece. */
  lemma EnsuredDone(t: Node, m: map<string, Addr>, parts: seq<string>)
    requires Inv(t, m) && PathSoFar(parts, |parts|) in m
    requires forall i | 0 <= i < |parts| :: '/' !in parts[i]
    ensures EnsuredFrom(t, m, parts, |parts|, PathSoFar(parts, |parts|)) == Ok((t, m))
  {
  }

  /** The parent loop over `[d]`, `d` missing, pushes an empty `d` under
      the root. */
  lemma EnsuredOneNew(t: Node, m: map<string, Addr>, d: string)
    requires Inv(t, m) && m[""] == [] && '/' !in d && d != "" && d !in m
    ensures ChildOf(t.path, Dir(d, d, 0, DirMode, []))
    ensures EnsuredFrom(t, m, [d], 0, "") == Ok(Push(t, m, [], Dir(d, d, 0, DirMode, []), 0))
  {
    var parts := [d];
    assert PathSoFar(parts, 1) == ChildPath("", d) == d;
    assert At(t, []) == t;
    EnsuredPush(t, m, parts, 0, []);
    var p := Push(t, m, [], Dir(d, d, 0, DirMode, []), 0);
    EnsuredDone(p.0, p.1, parts);
  }

  /** The last step of the parent loop over a missing path pushes an empty
      directory, and the loop ends. */
  lemma EnsuredLast(t: Node, m: map<string, Addr>, parts: seq<string>, pa: Addr)
    requires Inv(t, m) && |parts| >= 1
    requires PathSoFar(parts, |parts| - 1) in m && PathSoFar(parts, |parts|) !in m
    requires forall i | 0 <= i < |parts| :: '/' !in parts[i]
    requires m[PathSoFar(parts, |parts| - 1)] == pa && ValidAddr(t, pa) && At(t, pa).Dir?
    ensures ChildOf(At(t, pa).path, Dir(parts[|parts| - 1], PathSoFar(parts, |parts|), 0, DirMode, []))
    ensures EnsuredFrom(t, m, parts, |parts| - 1, PathSoFar(parts, |parts| - 1)) ==
      Ok(Push(t, m, pa, Dir(parts[|parts| - 1], PathSoFar(parts, |parts|), 0, DirMode, []), 0))
  {
    EnsuredPush(t, m, parts, |parts| - 1, pa);
    var p := Push(t, m, pa, Dir(parts[|parts| - 1], PathSoFar(parts, |parts|), 0, DirMode, []), 0);
    EnsuredDone(p.0, p.1, parts);
  }

  /** The parent loop over `[a, b]`, `a` recorded at the root's child `i`
      and `a/b` missing, pushes an empty `b` under `a`. */
  lemma EnsuredSubdir(t: Node, m: map<string, Addr>, a: string, b: string, i: nat)
    requires Inv(t, m) && '/' !in a && '/' !in b && a != ""
    requires a in m && m[a] == [i] && i < |t.children| && t.children[i].Dir?
    requires a + "/" + b !in m
    ensures ValidAddr(t, [i]) && At(t, [i]).Dir? && ChildOf(At(t, [i]).path, Dir(b, a + "/" + b, 0, DirMode, []))
    ensures EnsuredFrom(t, m, [a, b], 0, "") == Ok(Push(t, m, [i], Dir(b, a + "/" + b, 0, DirMode, []), 0))
  {
    var parts := [a, b];
    TwoPieces(a, b);
    EnsuredKnown(t, m, parts, 0);
    AtOne(t, i);
    EnsuredLast(t, m, parts, [i]);
  }

  /** The parent loop over `[a, b]`, both missing, pushes an empty `a`
      under the root, then an empty `b` under it. */
  lemma EnsuredTwoNew(t: Node, m: map<string, Addr>, a: string, b: string)
    requires Inv(t, m) && m[""] == [] && '/' !in a && '/' !in b && a != ""
    requires a !in m && a + "/" + b !in m
    ensures ChildOf(t.path, Dir(a, a, 0, DirMode, []))
    ensures
      var p := Push(t, m, [], Dir(a, a, 0, DirMode, []), 0);
      && ValidAddr(p.0, [|t.children|]) && At(p.0, [|t.children|]).Dir?
      && ChildOf(At(p.0, [|t.children|]).path, Dir(b, a + "/" + b, 0, DirMode, []))
      && EnsuredFrom(t, m, [a, b], 0, "") == Ok(Push(p.0, p.1, [|t.children|], Dir(b, a + "/" + b, 0, DirMode, []), 0))
  {
    var parts := [a, b];
    var n := |t.children|;
    TwoPieces(a, b);
    assert At(t, []) == t;
    EnsuredPush(t, m, parts, 0, []);
    var p := Push(t, m, [], Dir(a, a, 0, DirMode, []), 0);
    assert [] + [n] == [n];
    SlashApart(a, a, b);
    EnsuredLast(p.0, p.1, parts, [n]);
  }

  // ---------------------------------------------------------------------
  // the parent lookup (app.js:140-167) for the shapes of path the tests use

  lemma Pair(x: nat, y: nat)
    ensures [x] + [y] == [x, y]
  {
  }

  /** The child a push adds sits at its parent's address extended by the
      parent's old number of children. */
  lemma PushedAt(t: Node, m: map<string, Addr>, pa: Addr, c: Node, extra: nat)
    requires Inv(t, m) && ValidAddr(t, pa) && At(t, pa).Dir?
    requires ChildOf(At(t, pa).path, c) && Coherent(c)
    ensures
      var p := Push(t, m, pa, c, extra);
      ValidAddr(p.0, pa + [|At(t, pa).children|]) && At(p.0, pa + [|At(t, pa).children|]) == c
  {
    var p := Push(t, m, pa, c, extra);
    assert p.1[c.path] == pa + [|At(t, pa).children|];
  }

  /** When the parent loop ends by pushing the directory a path's parent
      names, the lookup finds it at the address where it was pushed. */
  lemma LocatePushed(t: Node, m: map<string, Addr>, path: string, t1: Node, m1: map<string, Addr>, pa: Addr, c: Node)
    requires Inv(t, m) && DirPath(path) !in m
    requires Inv(t1, m1) && ValidAddr(t1, pa) && At(t1, pa).Dir? && ChildOf(At(t1, pa).path, c) && Coherent(c)
    requires c.Dir? && c.path == DirPath(path)
    requires EnsuredFrom(t, m, DirParts(path), 0, "") == Ok(Push(t1, m1, pa, c, 0))
    ensures LocateParent(t, m, path) ==
      var p := Push(t1, m1, pa, c, 0);
      Ok((p.0, p.1, pa + [|At(t1, pa).children|]))
  {
    LocateParentMade(t, m, path, Ok(Push(t1, m1, pa, c, 0)));
  }

  /** For `d/f` with `d` missing, the lookup pushes an empty `d` under the
      root and finds it. */
  lemma LocateOneNew(t: Node, m: map<string, Addr>, path: string, d: string, f: string)
    requires Inv(t, m) && m[""] == [] && '/' !in d && '/' !in f && d != "" && path == d + "/" + f
    requires d !in m
    ensures ChildOf(t.path, Dir(d, d, 0, DirMode, []))
    ensures LocateParent(t, m, path) ==
      var p := Push(t, m, [], Dir(d, d, 0, DirMode, []), 0);
      Ok((p.0, p.1, [|t.children|]))
  {
    TwoSegments(d, f);
    EnsuredOneNew(t, m, d);
    assert At(t, []) == t && [] + [|t.children|] == [|t.children|];
    LocatePushed(t, m, path, t, m, [], Dir(d, d, 0, DirMode, []));
  }

  /** For `a/b/f` with `a` at the root's child `i` and `a/b` missing, the
      lookup pushes an empty `b` under `a` and finds it. */
  lemma LocateSubdir(t: Node, m: map<string, Addr>, path: string, a: string, b: string, f: string, i: nat)
    requires Inv(t, m) && '/' !in a && '/' !in b && '/' !in f && a != "" && path == a + "/" + b + "/" + f
    requires a in m && m[a] == [i] && i < |t.children| && t.children[i].Dir?
    requires a + "/" + b !in m
    ensures ValidAddr(t, [i]) && At(t, [i]).Dir? && ChildOf(At(t, [i]).path, Dir(b, a + "/" + b, 0, DirMode, []))
    ensures LocateParent(t, m, path) ==
      var p := Push(t, m, [i], Dir(b, a + "/" + b, 0, DirMode, []), 0);
      Ok((p.0, p.1, [i, |t.children[i].children|]))
  {
    ThreeSegments(a, b, f);
    EnsuredSubdir(t, m, a, b, i);
    AtOne(t, i);
    assert [i] + [|t.children[i].children|] == [i, |t.children[i].children|];
    LocatePushed(t, m, path, t, m, [i], Dir(b, a + "/" + b, 0, DirMode, []));
  }

  /** For `a/b/f` with `a` and `a/b` missing, the lookup pushes an empty `a`
      under the root and an empty `b` under it, and finds `b`. */
  lemma LocateTwoNew(t: Node, m: map<string, Addr>, path: string, a: string, b: string, f: string)
    requires Inv(t, m) && m[""] == [] && '/' !in a && '/' !in b && '/' !in f && a != "" && path == a + "/" + b + "/" + f
    requires a !in m && a + "/" + b !in m
    ensures ChildOf(t.path, Dir(a, a, 0, DirMode, []))
    ensures
      var p := Push(t, m, [], Dir(a, a, 0, DirMode, []), 0);
      && ValidAddr(p.0, [|t.children|]) && At(p.0, [|t.children|]).Dir?
      && ChildOf(At(p.0, [|t.children|]).path, Dir(b, a + "/" + b, 0, DirMode, []))
      && LocateParent(t, m, path) ==
           var q := Push(p.0, p.1, [|t.children|], Dir(b, a + "/" + b, 0, DirMode, []), 0);
           Ok((q.0, q.1, [|t.children|, 0]))
  {
    ThreeSegments(a, b, f);
    EnsuredTwoNew(t, m, a, b);
    var p := Push(t, m, [], Dir(a, a, 0, DirMode, []), 0);
    var n := |t.children|;
    PushedAt(t, m, [], Dir(a, a, 0, DirMode, []), 0);
    assert At(t, []) == t && [] + [n] == [n];
    Pair(n, |At(p.0, [n]).children|);
    LocatePushed(t, m, path, p.0, p.1, [n], Dir(b, a + "/" + b, 0, DirMode, []));
  }

  // ---------------------------------------------------------------------
  // one iteration of the loop (app.js:139-181) for the same shapes of path

  /** Appending to the last of a sequence of children is replacing it. */
  lemma ReplaceLast(cs: seq<Node>, x: Node, y: Node)
    ensures (cs + [x])[|cs| := y] == cs + [y]
  {
  }

  /** An entry `d/f` whose directory `d` is the root's recorded child `i`
      goes last among that child's children and is recorded under its
      path; nothing else changes. */
  lemma AddUnderTop(t: Node, m: map<string, Addr>, e: Entry, d: string, f: string, i: nat)
    requires Inv(t, m) && '/' !in d && '/' !in f && e.path == d + "/" + f
    requires d in m && m[d] == [i] && i < |t.children| && t.children[i].Dir?
    ensures AddEntry(t, m, e, true) ==
      Ok((t.(children := t.children[i := Grow(t.children[i], Extra(e), NodeFor(e, f, true))]),
          m[e.path := [i, |t.children[i].children|]]))
  {
    TwoSegments(d, f);
    AtOne(t, i);
    assert LocateParent(t, m, e.path) == Ok((t, m, [i]));
    AddEntryLocated(t, m, e, true);
    PushChild(t, m, i, NodeFor(e, f, true), Extra(e));
  }

  /** The root after pushing an empty `dir` last under it and then `c`
      into `dir`. */
  lemma GrownNewTop(t: Node, dir: Node, c: Node, extra: nat, t1: Node, t2: Node)
    requires t.Dir? && dir.Dir? && dir.size == 0 && dir.children == []
    requires t1 == Grow(t, 0, dir)
    requires t2 == t1.(children := t1.children[|t.children| := Grow(t1.children[|t.children|], extra, c)])
    ensures t2 == t.(children := t.children + [dir.(size := extra, children := [c])])
  {
    assert t1 == t.(children := t.children + [dir]);
    assert t1.children[|t.children|] == dir;
    assert Grow(dir, extra, c) == dir.(size := extra, children := [c]);
    ReplaceLast(t.children, dir, Grow(dir, extra, c));
  }

  /** An entry `d/f` with `d` missing adds a directory `d` last under the
      root, holding just the entry's node, and records both paths. */
  lemma AddUnderNewTop(t: Node, m: map<string, Addr>, e: Entry, d: string, f: string)
    requires Inv(t, m) && m[""] == [] && '/' !in d && '/' !in f && d != "" && e.path == d + "/" + f
    requires d !in m
    ensures AddEntry(t, m, e, true) ==
      Ok((t.(children := t.children + [Dir(d, d, Extra(e), DirMode, [NodeFor(e, f, true)])]),
          m[d := [|t.children|]][e.path := [|t.children|, 0]]))
  {
    var n := |t.children|;
    var dir := Dir(d, d, 0, DirMode, []);
    var node := NodeFor(e, f, true);
    LocateOneNew(t, m, e.path, d, f);
    TwoSegments(d, f);
    var p := Push(t, m, [], dir, 0);
    PushRoot(t, m, dir, 0);
    AddEntryLocated(t, m, e, true);
    var r := Push(p.0, p.1, [n], node, Extra(e));
    assert AddEntry(t, m, e, true) == Ok(r);
    PushChild(p.0, p.1, n, node, Extra(e));
    GrownNewTop(t, dir, node, Extra(e), p.0, r.0);
  }

  /** The root after pushing an empty `dir` last under its child `i` and
      then `c` into `dir`. */
  lemma GrownNewSub(t: Node, i: nat, dir: Node, c: Node, extra: nat, t1: Node, t2: Node)
    requires t.Dir? && i < |t.children| && t.children[i].Dir?
    requires dir.Dir? && dir.size == 0 && dir.children == []
    requires t1 == t.(children := t.children[i := Grow(t.children[i], 0, dir)])
    requires
      var n := |t.children[i].children|;
      && i < |t1.children| && t1.children[i].Dir? && n < |t1.children[i].children| && t1.children[i].children[n].Dir?
      && t2 == t1.(children := t1.children[i := t1.children[i].(children := t1.children[i].children[n :=
                  Grow(t1.children[i].children[n], extra, c)])])
    ensures
      var k := t.children[i];
      t2 == t.(children := t.children[i := k.(children := k.children + [dir.(size := extra, children := [c])])])
  {
    var k := t.children[i];
    var n := |k.children|;
    assert t1.children[i] == k.(children := k.children + [dir]);
    assert t1.children[i].children[n] == dir;
    assert Grow(dir, extra, c) == dir.(size := extra, children := [c]);
    ReplaceLast(k.children, dir, Grow(dir, extra, c));
    var k' := k.(children := k.children + [dir.(size := extra, children := [c])]);
    assert t1.children[i := k'] == t.children[i := k'];
  }

  /** The root after pushing an empty `top` last under it, an empty `dir`
      into `top`, and then `c` into `dir`. */
  lemma GrownTwoNew(t: Node, top: Node, dir: Node, c: Node, extra: nat, t1: Node, t2: Node, t3: Node)
    requires t.Dir? && top.Dir? && top.size == 0 && top.children == [] && dir.Dir? && dir.size == 0 && dir.children == []
    requires t1 == Grow(t, 0, top)
    requires t2 == t1.(children := t1.children[|t.children| := Grow(t1.children[|t.children|], 0, dir)])
    requires
      var n := |t.children|;
      && n < |t2.children| && t2.children[n].Dir? && 0 < |t2.children[n].children| && t2.children[n].children[0].Dir?
      && t3 == t2.(children := t2.children[n := t2.children[n].(children := t2.children[n].children[0 :=
                  Grow(t2.children[n].children[0], extra, c)])])
    ensures t3 == t.(children := t.children + [top.(children := [dir.(size := extra, children := [c])])])
  {
    var n := |t.children|;
    GrownNewTop(t, top, dir, 0, t1, t2);
    var top1 := top.(size := 0, children := [dir]);
    assert t2.children[n] == top1 && top1.children[0] == dir;
    assert Grow(dir, extra, c) == dir.(size := extra, children := [c]);
    var top2 := top.(children := [dir.(size := extra, children := [c])]);
    assert top1.(children := top1.children[0 := Grow(dir, extra, c)]) == top2;
    ReplaceLast(t.children, top1, top2);
  }

  /** An entry `a/b/f` with `a` the root's recorded child `i` and `a/b`
      missing adds a directory `b` last under `a`, holding just the entry's
      node, and records both paths. */
  lemma AddUnderNewSub(t: Node, m: map<string, Addr>, e: Entry, a: string, b: string, f: string, i: nat)
    requires Inv(t, m) && '/' !in a && '/' !in b && '/' !in f && a != "" && e.path == a + "/" + b + "/" + f
    requires a in m && m[a] == [i] && i < |t.children| && t.children[i].Dir?
    requires a + "/" + b !in m
    ensures AddEntry(t, m, e, true) ==
      var k := t.children[i];
      Ok((t.(children := t.children[i := k.(children := k.children + [Dir(b, a + "/" + b, Extra(e), DirMode, [NodeFor(e, f, true)])])]),
          m[a + "/" + b := [i, |k.children|]][e.path := [i, |k.children|, 0]]))
  {
    var k := t.children[i];
    var n := |k.children|;
    var dir := Dir(b, a + "/" + b, 0, DirMode, []);
    var node := NodeFor(e, f, true);
    LocateSubdir(t, m, e.path, a, b, f, i);
    ThreeSegments(a, b, f);
    var p := Push(t, m, [i], dir, 0);
    PushChild(t, m, i, dir, 0);
    AddEntryLocated(t, m, e, true);
    var r := Push(p.0, p.1, [i, n], node, Extra(e));
    assert AddEntry(t, m, e, true) == Ok(r);
    PushGrandchild(p.0, p.1, i, n, node, Extra(e));
    GrownNewSub(t, i, dir, node, Extra(e), p.0, r.0);
  }

  /** An entry `a/b/f` with `a` and `a/b` missing adds a directory `a`
      last under the root, holding a directory `b`, holding just the
      entry's node, and records the three paths. */
  lemma AddUnderTwoNew(t: Node, m: map<string, Addr>, e: Entry, a: string, b: string, f: string)
    requires Inv(t, m) && m[""] == [] && '/' !in a && '/' !in b && '/' !in f && a != "" && e.path == a + "/" + b + "/" + f
    requires a !in m && a + "/" + b !in m
    ensures AddEntry(t, m, e, true) ==
      var n := |t.children|;
      Ok((t.(children := t.children + [Dir(a, a, 0, DirMode, [Dir(b, a + "/" + b, Extra(e), DirMode, [NodeFor(e, f, true)])])]),
          m[a := [n]][a + "/" + b := [n, 0]][e.path := [n, 0, 0]]))
  {
    var n := |t.children|;
    var top := Dir(a, a, 0, DirMode, []);
    var dir := Dir(b, a + "/" + b, 0, DirMode, []);
    var node := NodeFor(e, f, true);
    LocateTwoNew(t, m, e.path, a, b, f);
    ThreeSegments(a, b, f);
    var p := Push(t, m, [], top, 0);
    PushRoot(t, m, top, 0);
    var q := Push(p.0, p.1, [n], dir, 0);
    PushChild(p.0, p.1, n, dir, 0);
    AddEntryLocated(t, m, e, true);
    var r := Push(q.0, q.1, [n, 0], node, Extra(e));
    assert AddEntry(t, m, e, true) == Ok(r);
    PushGrandchild(q.0, q.1, n, 0, node, Extra(e));
    GrownTwoNew(t, top, dir, node, Extra(e), p.0, q.0, r.0);
  }

  // ---------------------------------------------------------------------
  // the listing of the directory-size test
  // (tests/unit/repoDiagram.test.js:71-86): `d1/f1`, `d1/f2`, `d2/f3`

  /** A successful result equal to one state is equal to any state equal
      to it. */
  lemma Rewrite(r: Result<(Node, map<string, Addr>), BuildError>, a: Node, b: Node, m: map<string, Addr>, m': map<string, Addr>)
    requires r == Ok((a, m)) && a == b && m == m'
    ensures r == Ok((b, m'))
  {
  }

  /** Growing the root's only child `k`, which holds `x` alone, by `y`. */
  lemma GrowOnly(t: Node, k: Node, x: Node, y: Node)
    requires t.Dir? && t.children == [k] && k.Dir? && k.children == [x]
    ensures t.(children := t.children[0 := Grow(t.children[0], y.size, y)]) ==
            t.(children := [k.(size := k.size + y.size, children := [x, y])])
  {
    GrowTwo(k, x, y);
    assert t.children[0 := Grow(k, y.size, y)] == [Grow(k, y.size, y)];
  }

  /** A directory holding `x` alone, grown by `y`, holds both. */
  lemma GrowTwo(d: Node, x: Node, y: Node)
    requires d.Dir? && d.children == [x]
    ensures Grow(d, y.size, y) == d.(size := d.size + y.size, children := [x, y])
  {
    assert [x] + [y] == [x, y];
  }

  /** Iteration 1: the blob `d1/f1` into the empty root makes the
      directory `d1` holding the file. */
  lemma SizesFirst(name: string, e: Entry, d1: string, f1: string, x: Node, k: Node)
    requires '/' !in d1 && '/' !in f1 && d1 != "" && e.path == d1 + "/" + f1 && e.kind == Blob
    requires x == File(f1, e.path, e.size, e.mode) && k == Dir(d1, d1, e.size, DirMode, [x])
    ensures AddEntry(Dir(name, "", 0, DirMode, []), map["" := []], e, true) ==
      Ok((Dir(name, "", 0, DirMode, [k]), map["" := [], d1 := [0], e.path := [0, 0]]))
  {
    var t0 := Dir(name, "", 0, DirMode, []);
    assert Inv(t0, map["" := []]) by {
      assert At(t0, []) == t0;
    }
    AddUnderNewTop(t0, map["" := []], e, d1, f1);
    assert NodeFor(e, f1, true) == x && Extra(e) == e.size;
    assert t0.children + [k] == [k];
  }

  /** Iteration 2: a blob `d1/f2` into the directory `d1`, the root's only
      child so far, holding one node. */
  lemma SizesSecond(t: Node, m: map<string, Addr>, e: Entry, d1: string, f2: string, k: Node, x: Node, y: Node, k': Node)
    requires '/' !in d1 && '/' !in f2 && e.path == d1 + "/" + f2 && e.kind == Blob
    requires Inv(t, m) && d1 in m && m[d1] == [0]
    requires t.children == [k] && k.Dir? && k.children == [x]
    requires y == File(f2, e.path, e.size, e.mode) && k' == k.(size := k.size + y.size, children := [x, y])
    ensures AddEntry(t, m, e, true) == Ok((t.(children := [k']), m[e.path := [0, 1]]))
  {
    assert Extra(e) == y.size && NodeFor(e, f2, true) == y && |t.children[0].children| == 1;
    AddUnderTop(t, m, e, d1, f2, 0);
    GrowOnly(t, k, x, y);
    Rewrite(AddEntry(t, m, e, true), t.(children := t.children[0 := Grow(t.children[0], y.size, y)]),
            t.(children := [k']), m[e.path := [0, 1]], m[e.path := [0, 1]]);
  }

  /** Iteration 3: a blob `d2/f3`, with `d2` not yet recorded, goes into a
      new directory after the root's only child. */
  lemma SizesThird(t: Node, m: map<string, Addr>, e: Entry, d2: string, f3: string, k: Node, z: Node, k': Node)
    requires '/' !in d2 && '/' !in f3 && d2 != "" && e.path == d2 + "/" + f3 && e.kind == Blob
    requires Inv(t, m) && m[""] == [] && d2 !in m && t.children == [k]
    requires z == File(f3, e.path, e.size, e.mode) && k' == Dir(d2, d2, e.size, DirMode, [z])
    ensures AddEntry(t, m, e, true) == Ok((t.(children := [k, k']), m[d2 := [1]][e.path := [1, 0]]))
  {
    assert NodeFor(e, f3, true) == z && Extra(e) == e.size;
    assert |t.children| == 1 && t.children + [k'] == [k] + [k'] == [k, k'];
    AddUnderNewTop(t, m, e, d2, f3);
  }

  /** The paths recorded after two iterations do not include `d2`, and
      the root is still recorded at the empty address. */
  lemma SizesKeys(d1: string, f1: string, f2: string, d2: string, m: map<string, Addr>)
    requires '/' !in d1 && '/' !in f1 && '/' !in f2 && '/' !in d2
    requires d1 != "" && d2 != "" && d1 != d2
    requires m == map["" := [], d1 := [0], d1 + "/" + f1 := [0, 0], d1 + "/" + f2 := [0, 1]]
    ensures m[""] == [] && d2 !in m
  {
    SlashApart(d2, d1, f1);
    SlashApart(d2, d1, f2);
    SlashApart("", d1, f1);
    SlashApart("", d1, f2);
  }

  /** The first iteration over that listing. */
  lemma SizesOne(es: seq<Entry>, name: string, d1: string, f1: string, x: Node, k: Node)
    requires '/' !in d1 && '/' !in f1 && d1 != ""
    requires 1 <= |es| && es[0].path == d1 + "/" + f1 && es[0].kind == Blob
    requires x == File(f1, es[0].path, es[0].size, es[0].mode) && k == Dir(d1, d1, es[0].size, DirMode, [x])
    ensures Inserted(es, 1, name, true) == Ok((Dir(name, "", 0, DirMode, [k]), map["" := [], d1 := [0], es[0].path := [0, 0]]))
  {
    var t0, m0 := Dir(name, "", 0, DirMode, []), map["" := []];
    assert Inserted(es, 0, name, true) == Ok((t0, m0));
    InsertedNext(es, 0, 1, name, true, t0, m0);
    SizesFirst(name, es[0], d1, f1, x, k);
  }

  /** A directory holding `x` alone, with `y` added and its size grown by
      `y`'s, is the directory holding both. */
  lemma GrownDir(k: Node, x: Node, y: Node, k': Node)
    requires k.Dir? && k'.Dir? && k.children == [x] && k'.children == [x, y]
    requires k.name == k'.name && k.path == k'.path && k.mode == k'.mode && k'.size == k.size + y.size
    ensures k.(size := k.size + y.size, children := [x, y]) == k'
  {
  }

  /** The first two iterations over that listing. */
  lemma SizesTwo(es: seq<Entry>, name: string, d1: string, f1: string, f2: string, x: Node, y: Node, k: Node)
    requires '/' !in d1 && '/' !in f1 && '/' !in f2 && d1 != ""
    requires 2 <= |es| && es[0].path == d1 + "/" + f1 && es[1].path == d1 + "/" + f2 && es[0].kind == es[1].kind == Blob
    requires x == File(f1, es[0].path, es[0].size, es[0].mode) && y == File(f2, es[1].path, es[1].size, es[1].mode)
    requires k == Dir(d1, d1, es[0].size + es[1].size, DirMode, [x, y])
    ensures Inserted(es, 2, name, true) ==
      Ok((Dir(name, "", 0, DirMode, [k]), map["" := [], d1 := [0], es[0].path := [0, 0], es[1].path := [0, 1]]))
  {
    var k1 := Dir(d1, d1, es[0].size, DirMode, [x]);
    GrownDir(k1, x, y, k);
    SlashApart(d1, d1, f1);
    var t1, m1 := Dir(name, "", 0, DirMode, [k1]), map["" := [], d1 := [0], es[0].path := [0, 0]];
    assert d1 in m1 && m1[d1] == [0];
    SizesOne(es, name, d1, f1, x, k1);
    InsertedNext(es, 1, 2, name, true, t1, m1);
    SizesSecond(t1, m1, es[1], d1, f2, k1, x, y, k);
    Rewrite(AddEntry(t1, m1, es[1], true), t1.(children := [k]), Dir(name, "", 0, DirMode, [k]),
            m1[es[1].path := [0, 1]], m1[es[1].path := [0, 1]]);
  }

  /** The loop over that listing makes one directory per first segment,
      in order of first appearance, each holding its files in listing
      order, and records every path. */
  lemma SizesInserted(es: seq<Entry>, name: string, d1: string, f1: string, f2: string, d2: string, f3: string,
                      x: Node, y: Node, z: Node, k: Node, k': Node)
    requires '/' !in d1 && '/' !in f1 && '/' !in f2 && '/' !in d2 && '/' !in f3
    requires d1 != "" && d2 != "" && d1 != d2
    requires |es| == 3 && es[0].path == d1 + "/" + f1 && es[1].path == d1 + "/" + f2 && es[2].path == d2 + "/" + f3
    requires es[0].kind == es[1].kind == es[2].kind == Blob
    requires x == File(f1, es[0].path, es[0].size, es[0].mode) && y == File(f2, es[1].path, es[1].size, es[1].mode)
    requires z == File(f3, es[2].path, es[2].size, es[2].mode)
    requires k == Dir(d1, d1, es[0].size + es[1].size, DirMode, [x, y]) && k' == Dir(d2, d2, es[2].size, DirMode, [z])
    ensures Inserted(es, 3, name, true) ==
      Ok((Dir(name, "", 0, DirMode, [k, k']),
          map["" := [], d1 := [0], es[0].path := [0, 0], es[1].path := [0, 1], d2 := [1], es[2].path := [1, 0]]))
  {
    SizesTwo(es, name, d1, f1, f2, x, y, k);
    var t2, m2 := Dir(name, "", 0, DirMode, [k]), map["" := [], d1 := [0], es[0].path := [0, 0], es[1].path := [0, 1]];
    InsertedNext(es, 2, 3, name, true, t2, m2);
    SizesKeys(d1, f1, f2, d2, m2);
    SizesThird(t2, m2, es[2], d2, f3, k, z, k');
  }

  /** The total size of a single node is its own size. */
  lemma SumOne(n: Node)
    ensures SizeSum([n]) == n.size
  {
    assert [n][..0] == [];
  }

  /** The tree the loop leaves for that listing, with the root's size set
      to the total, is sized and listed, and differs from the loop's tree
      only in sizes. */
  lemma SizesSized(name: string, x: Node, y: Node, z: Node, k: Node, k': Node, size: nat)
    requires x.File? && y.File? && z.File?
    requires k.Dir? && k.children == [x, y] && k.size == x.size + y.size
    requires k'.Dir? && k'.children == [z] && k'.size == z.size
    requires size == k.size + k'.size
    ensures Sized(Dir(name, "", size, DirMode, [k, k'])) && Listed(Dir(name, "", size, DirMode, [k, k']))
    ensures SameButSizes(Dir(name, "", 0, DirMode, [k, k']), Dir(name, "", size, DirMode, [k, k']))
  {
    assert [x, y][..1] == [x] && [k, k'][..1] == [k] && [z][..0] == [];
    SumOne(x);
    SumOne(k);
    assert SameButSizes(k, k) && SameButSizes(k', k');
  }

  /** Any result that, like `buildTree`'s, succeeds with the loop's tree
      resized is, for that listing, the tree described in `SizesBuilt`. */
  lemma SizesResult(es: seq<Entry>, repoPath: string, d1: string, f1: string, f2: string, d2: string, f3: string,
                    r: Result<Node, BuildError>)
    requires '/' in repoPath
    requires '/' !in d1 && '/' !in f1 && '/' !in f2 && '/' !in d2 && '/' !in f3
    requires d1 != "" && d2 != "" && d1 != d2
    requires |es| == 3 && es[0].path == d1 + "/" + f1 && es[1].path == d1 + "/" + f2 && es[2].path == d2 + "/" + f3
    requires es[0].kind == es[1].kind == es[2].kind == Blob
    requires r.Ok? <==> Assembled(es, repoPath, true).Ok?
    requires r.Ok? ==> SameButSizes(Assembled(es, repoPath, true).value.0, r.value)
    requires r.Ok? ==> Sized(r.value) && Listed(r.value)
    ensures r == Ok(Dir(RootName(repoPath), "", es[0].size + es[1].size + es[2].size, DirMode,
                        [Dir(d1, d1, es[0].size + es[1].size, DirMode,
                             [File(f1, es[0].path, es[0].size, es[0].mode), File(f2, es[1].path, es[1].size, es[1].mode)]),
                         Dir(d2, d2, es[2].size, DirMode, [File(f3, es[2].path, es[2].size, es[2].mode)])]))
  {
    var x, y, z := File(f1, es[0].path, es[0].size, es[0].mode), File(f2, es[1].path, es[1].size, es[1].mode),
                   File(f3, es[2].path, es[2].size, es[2].mode);
    var k, k' := Dir(d1, d1, es[0].size + es[1].size, DirMode, [x, y]), Dir(d2, d2, es[2].size, DirMode, [z]);
    var name := RootName(repoPath);
    SizesInserted(es, name, d1, f1, f2, d2, f3, x, y, z, k, k');
    var total := es[0].size + es[1].size + es[2].size;
    var e := Dir(name, "", total, DirMode, [k, k']);
    SizesSized(name, x, y, z, k, k', total);
    assert Assembled(es, repoPath, true) == Inserted(es, 3, name, true);
    assert r.Ok?;
    SizedUnique(Dir(name, "", 0, DirMode, [k, k']), r.value, e);
    assert r == Ok(e);
    assert k == Dir(d1, d1, es[0].size + es[1].size, DirMode,
                             [File(f1, es[0].path, es[0].size, es[0].mode), File(f2, es[1].path, es[1].size, es[1].mode)]);
    assert k' == Dir(d2, d2, es[2].size, DirMode, [File(f3, es[2].path, es[2].size, es[2].mode)]);
    assert e == Dir(RootName(repoPath), "", es[0].size + es[1].size + es[2].size, DirMode, [k, k']);
  }

  /** `buildTree` on the listing `d1/f1`, `d1/f2`, `d2/f3` of blobs gives
      a root holding `d1` with `f1` and `f2`, then `d2` with `f3`; each
      directory's size is the total of its files, and the root's the total
      of all three. */
  method SizesBuilt(es: seq<Entry>, repoPath: string, d1: string, f1: string, f2: string, d2: string, f3: string)
    returns (r: Result<Node, BuildError>)
    requires '/' in repoPath
    requires '/' !in d1 && '/' !in f1 && '/' !in f2 && '/' !in d2 && '/' !in f3
    requires d1 != "" && d2 != "" && d1 != d2
    requires |es| == 3 && es[0].path == d1 + "/" + f1 && es[1].path == d1 + "/" + f2 && es[2].path == d2 + "/" + f3
    requires es[0].kind == es[1].kind == es[2].kind == Blob
    ensures r == Ok(Dir(RootName(repoPath), "", es[0].size + es[1].size + es[2].size, DirMode,
                        [Dir(d1, d1, es[0].size + es[1].size, DirMode,
                             [File(f1, es[0].path, es[0].size, es[0].mode), File(f2, es[1].path, es[1].size, es[1].mode)]),
                         Dir(d2, d2, es[2].size, DirMode, [File(f3, es[2].path, es[2].size, es[2].mode)])]))
  {
    r := BuildTree(es, repoPath);
    SizesResult(es, repoPath, d1, f1, f2, d2, f3, r);
  }

  /** The directory-size test itself: `dir1` holds 1000 bytes, `dir2`
      1000, and the root 2000. */
  method SizesTest() returns (r: Result<Node, BuildError>)
    ensures r.Ok? && r.value.Dir? && r.value.name == "repo" && |r.value.children| == 2
    ensures r.value.children[0].name == "dir1" && r.value.children[0].size == 1000
    ensures r.value.children[1].name == "dir2" && r.value.children[1].size == 1000
    ensures r.value.size == 2000
  {
    var es := [Entry("dir1" + "/" + "file1.txt", Blob, 500, "100644"),
               Entry("dir1" + "/" + "file2.txt", Blob, 500, "100644"),
               Entry("dir2" + "/" + "file3.txt", Blob, 1000, "100644")];
    TwoSegments("test", "repo");
    r := SizesBuilt(es, "test" + "/" + "repo", "dir1", "file1.txt", "file2.txt", "dir2", "file3.txt");
  }

  // ---------------------------------------------------------------------
  // the listing of the nested-directory test
  // (tests/unit/repoDiagram.test.js:55-69): `a/x`, `a/u/h`, `a/c/b`,
  // `d/v/g`

  /** A blob `a/b/f` whose `a` is the root's only child `k` and whose
      `a/b` is missing adds a directory `b` last under `k`, holding just
      the file. */
  lemma SubStep(t: Node, m: map<string, Addr>, e: Entry, a: string, b: string, f: string, k: Node, w: Node, k': Node)
    requires '/' !in a && '/' !in b && '/' !in f && a != "" && e.path == a + "/" + b + "/" + f && e.kind == Blob
    requires Inv(t, m) && a in m && m[a] == [0] && a + "/" + b !in m
    requires t.children == [k] && k.Dir?
    requires w == File(f, e.path, e.size, e.mode)
    requires k' == k.(children := k.children + [Dir(b, a + "/" + b, e.size, DirMode, [w])])
    ensures AddEntry(t, m, e, true) ==
      Ok((t.(children := [k']), m[a + "/" + b := [0, |k.children|]][e.path := [0, |k.children|, 0]]))
  {
    assert NodeFor(e, f, true) == w && Extra(e) == e.size;
    assert t.children[0 := k'] == [k'];
    AddUnderNewSub(t, m, e, a, b, f, 0);
  }

  /** A blob `a/b/f` with `a` and `a/b` missing, under a root whose only
      child is `k`, adds `a` after `k`, holding `b`, holding just the
      file. */
  lemma TwoNewStep(t: Node, m: map<string, Addr>, e: Entry, a: string, b: string, f: string, k: Node, w: Node, top: Node)
    requires '/' !in a && '/' !in b && '/' !in f && a != "" && e.path == a + "/" + b + "/" + f && e.kind == Blob
    requires Inv(t, m) && m[""] == [] && a !in m && a + "/" + b !in m
    requires t.children == [k]
    requires w == File(f, e.path, e.size, e.mode)
    requires top == Dir(a, a, 0, DirMode, [Dir(b, a + "/" + b, e.size, DirMode, [w])])
    ensures AddEntry(t, m, e, true) == Ok((t.(children := [k, top]), m[a := [1]][a + "/" + b := [1, 0]][e.path := [1, 0, 0]]))
  {
    assert NodeFor(e, f, true) == w && Extra(e) == e.size;
    assert t.children + [top] == [k, top];
    AddUnderTwoNew(t, m, e, a, b, f);
    Rewrite(AddEntry(t, m, e, true),
            t.(children := t.children + [Dir(a, a, 0, DirMode, [Dir(b, a + "/" + b, Extra(e), DirMode, [NodeFor(e, f, true)])])]),
            t.(children := [k, top]),
            m[a := [|t.children|]][a + "/" + b := [|t.children|, 0]][e.path := [|t.children|, 0, 0]],
            m[a := [1]][a + "/" + b := [1, 0]][e.path := [1, 0, 0]]);
  }

  /** `a/b/c` is `a/` followed by `b/c`. */
  lemma SlashRegroup(a: string, b: string, c: string)
    ensures a + "/" + b + "/" + c == a + "/" + (b + "/" + c)
  {
  }

  /** After the first iteration, `a` is the root's child 0 and `a/u` is
      not recorded. */
  lemma NestedKeysTwo(a: string, x: string, u: string, m: map<string, Addr>)
    requires '/' !in a && '/' !in x && '/' !in u && a != "" && u != x
    requires m == map["" := [], a := [0], a + "/" + x := [0, 0]]
    ensures a in m && m[a] == [0] && a + "/" + u !in m
  {
    SlashApart(a, a, x);
    SlashApart("", a, u);
    SlashApart(a, a, u);
    RestApart(a, u, x);
  }

  /** After the second iteration, `a` is still the root's child 0 and
      `a/c` is not recorded. */
  lemma NestedKeysThree(a: string, x: string, u: string, h: string, c: string, m: map<string, Addr>)
    requires '/' !in a && '/' !in x && '/' !in u && '/' !in h && '/' !in c && a != "" && c != x && c != u
    requires m == map["" := [], a := [0], a + "/" + x := [0, 0]][a + "/" + u := [0, 1]][a + "/" + u + "/" + h := [0, 1, 0]]
    ensures a in m && m[a] == [0] && a + "/" + c !in m
  {
    SlashApart(a, a, x);
    SlashApart(a, a, u);
    SlashApart(a, a + "/" + u, h);
    SlashApart("", a, c);
    SlashApart(a, a, c);
    RestApart(a, c, x);
    RestApart(a, c, u);
    SlashApart(c, u, h);
    RestApart(a, c, u + "/" + h);
    SlashRegroup(a, u, h);
  }

  /** After the third iteration, the root is still at the empty address
      and neither `d` nor `d/v` is recorded. */
  lemma NestedKeysFour(a: string, x: string, u: string, h: string, c: string, b: string, d: string, v: string,
                       m: map<string, Addr>)
    requires '/' !in a && '/' !in x && '/' !in u && '/' !in h && '/' !in c && '/' !in b && '/' !in d && '/' !in v
    requires a != "" && d != "" && a != d
    requires m == map["" := [], a := [0], a + "/" + x := [0, 0]][a + "/" + u := [0, 1]][a + "/" + u + "/" + h := [0, 1, 0]]
                    [a + "/" + c := [0, 2]][a + "/" + c + "/" + b := [0, 2, 0]]
    ensures m[""] == [] && d !in m && d + "/" + v !in m
  {
    SlashApart("", a, x);
    SlashApart("", a, u);
    SlashApart("", a + "/" + u, h);
    SlashApart("", a, c);
    SlashApart("", a + "/" + c, b);
    SlashApart(d, a, x);
    SlashApart(d, a, u);
    SlashApart(d, a + "/" + u, h);
    SlashApart(d, a, c);
    SlashApart(d, a + "/" + c, b);
    SlashApart("", d, v);
    SlashApart(a, d, v);
    FirstSegmentApart(d, a, v, x);
    FirstSegmentApart(d, a, v, u);
    FirstSegmentApart(d, a, v, c);
    FirstSegmentApart(d, a, v, u + "/" + h);
    FirstSegmentApart(d, a, v, c + "/" + b);
    SlashRegroup(a, u, h);
    SlashRegroup(a, c, b);
  }

  /** A directory with `c` added last, and nothing else changed. */
  lemma AddedLast(k1: Node, c: Node, k: Node)
    requires k1.Dir? && k.Dir? && k.children == k1.children + [c]
    requires k.name == k1.name && k.path == k1.path && k.size == k1.size && k.mode == k1.mode
    ensures k == k1.(children := k1.children + [c])
  {
  }

  /** The first two iterations over that listing: `a/u` is pushed under
      `a`, after `a/x`. */
  lemma NestedTwo(es: seq<Entry>, name: string, a: string, x: string, u: string, h: string,
                  fx: Node, fh: Node, du: Node, k: Node)
    requires '/' !in a && '/' !in x && '/' !in u && '/' !in h && a != "" && u != x
    requires 2 <= |es| && es[0].path == a + "/" + x && es[1].path == a + "/" + u + "/" + h
    requires es[0].kind == es[1].kind == Blob
    requires fx == File(x, es[0].path, es[0].size, es[0].mode) && fh == File(h, es[1].path, es[1].size, es[1].mode)
    requires du == Dir(u, a + "/" + u, es[1].size, DirMode, [fh]) && k == Dir(a, a, es[0].size, DirMode, [fx, du])
    ensures Inserted(es, 2, name, true) ==
      Ok((Dir(name, "", 0, DirMode, [k]),
          map["" := [], a := [0], es[0].path := [0, 0]][a + "/" + u := [0, 1]][es[1].path := [0, 1, 0]]))
  {
    var k1 := Dir(a, a, es[0].size, DirMode, [fx]);
    assert k1.children + [du] == [fx, du];
    AddedLast(k1, du, k);
    SizesOne(es, name, a, x, fx, k1);
    var t1, m1 := Dir(name, "", 0, DirMode, [k1]), map["" := [], a := [0], es[0].path := [0, 0]];
    InsertedNext(es, 1, 2, name, true, t1, m1);
    NestedKeysTwo(a, x, u, m1);
    SubStep(t1, m1, es[1], a, u, h, k1, fh, k);
    Rewrite(AddEntry(t1, m1, es[1], true), t1.(children := [k]), Dir(name, "", 0, DirMode, [k]),
            m1[a + "/" + u := [0, |k1.children|]][es[1].path := [0, |k1.children|, 0]],
            m1[a + "/" + u := [0, 1]][es[1].path := [0, 1, 0]]);
  }

  /** The third iteration: `a/c` is pushed under `a`, after `a/u`. */
  lemma NestedThree(es: seq<Entry>, name: string, a: string, x: string, u: string, h: string, c: string, b: string,
                    fx: Node, fh: Node, fb: Node, du: Node, dc: Node, k: Node)
    requires '/' !in a && '/' !in x && '/' !in u && '/' !in h && '/' !in c && '/' !in b
    requires a != "" && u != x && c != x && c != u
    requires 3 <= |es| && es[0].path == a + "/" + x && es[1].path == a + "/" + u + "/" + h && es[2].path == a + "/" + c + "/" + b
    requires es[0].kind == es[1].kind == es[2].kind == Blob
    requires fx == File(x, es[0].path, es[0].size, es[0].mode) && fh == File(h, es[1].path, es[1].size, es[1].mode)
    requires fb == File(b, es[2].path, es[2].size, es[2].mode)
    requires du == Dir(u, a + "/" + u, es[1].size, DirMode, [fh]) && dc == Dir(c, a + "/" + c, es[2].size, DirMode, [fb])
    requires k == Dir(a, a, es[0].size, DirMode, [fx, du, dc])
    ensures Inserted(es, 3, name, true) ==
      Ok((Dir(name, "", 0, DirMode, [k]),
          map["" := [], a := [0], es[0].path := [0, 0]][a + "/" + u := [0, 1]][es[1].path := [0, 1, 0]]
             [a + "/" + c := [0, 2]][es[2].path := [0, 2, 0]]))
  {
    var k2 := Dir(a, a, es[0].size, DirMode, [fx, du]);
    assert k2.children + [dc] == [fx, du, dc];
    AddedLast(k2, dc, k);
    NestedTwo(es, name, a, x, u, h, fx, fh, du, k2);
    var t2 := Dir(name, "", 0, DirMode, [k2]);
    var m2 := map["" := [], a := [0], es[0].path := [0, 0]][a + "/" + u := [0, 1]][es[1].path := [0, 1, 0]];
    InsertedNext(es, 2, 3, name, true, t2, m2);
    NestedKeysThree(a, x, u, h, c, m2);
    SubStep(t2, m2, es[2], a, c, b, k2, fb, k);
    Rewrite(AddEntry(t2, m2, es[2], true), t2.(children := [k]), Dir(name, "", 0, DirMode, [k]),
            m2[a + "/" + c := [0, |k2.children|]][es[2].path := [0, |k2.children|, 0]],
            m2[a + "/" + c := [0, 2]][es[2].path := [0, 2, 0]]);
  }

  /** The whole loop over that listing: `d` and `d/v` are both made for
      the last path, `d` with no size of its own. */
  lemma NestedInserted(es: seq<Entry>, name: string, a: string, x: string, u: string, h: string, c: string, b: string,
                       d: string, v: string, g: string,
                       fx: Node, fh: Node, fb: Node, fg: Node, du: Node, dc: Node, k: Node, top: Node)
    requires '/' !in a && '/' !in x && '/' !in u && '/' !in h && '/' !in c && '/' !in b
    requires '/' !in d && '/' !in v && '/' !in g
    requires a != "" && d != "" && a != d && u != x && c != x && c != u
    requires |es| == 4 && es[0].path == a + "/" + x && es[1].path == a + "/" + u + "/" + h
    requires es[2].path == a + "/" + c + "/" + b && es[3].path == d + "/" + v + "/" + g
    requires es[0].kind == es[1].kind == es[2].kind == es[3].kind == Blob
    requires fx == File(x, es[0].path, es[0].size, es[0].mode) && fh == File(h, es[1].path, es[1].size, es[1].mode)
    requires fb == File(b, es[2].path, es[2].size, es[2].mode) && fg == File(g, es[3].path, es[3].size, es[3].mode)
    requires du == Dir(u, a + "/" + u, es[1].size, DirMode, [fh]) && dc == Dir(c, a + "/" + c, es[2].size, DirMode, [fb])
    requires k == Dir(a, a, es[0].size, DirMode, [fx, du, dc])
    requires top == Dir(d, d, 0, DirMode, [Dir(v, d + "/" + v, es[3].size, DirMode, [fg])])
    ensures Inserted(es, 4, name, true) ==
      Ok((Dir(name, "", 0, DirMode, [k, top]),
          map["" := [], a := [0], es[0].path := [0, 0]][a + "/" + u := [0, 1]][es[1].path := [0, 1, 0]]
             [a + "/" + c := [0, 2]][es[2].path := [0, 2, 0]]
             [d := [1]][d + "/" + v := [1, 0]][es[3].path := [1, 0, 0]]))
  {
    NestedThree(es, name, a, x, u, h, c, b, fx, fh, fb, du, dc, k);
    var t3 := Dir(name, "", 0, DirMode, [k]);
    var m3 := map["" := [], a := [0], es[0].path := [0, 0]][a + "/" + u := [0, 1]][es[1].path := [0, 1, 0]]
                 [a + "/" + c := [0, 2]][es[2].path := [0, 2, 0]];
    InsertedNext(es, 3, 4, name, true, t3, m3);
    NestedKeysFour(a, x, u, h, c, b, d, v, m3);
    TwoNewStep(t3, m3, es[3], d, v, g, k, fg, top);
  }

  /** The tree the loop leaves for that listing, with every directory
      resized to the total of its files, is sized and listed, and differs
      from the loop's tree only in sizes. */
  lemma NestedSized(name: string, fx: Node, du: Node, dc: Node, dv: Node, k: Node, top: Node, k': Node, top': Node,
                    size: nat)
    requires fx.File?
    requires du.Dir? && |du.children| == 1 && du.children[0].File? && du.size == du.children[0].size
    requires dc.Dir? && |dc.children| == 1 && dc.children[0].File? && dc.size == dc.children[0].size
    requires dv.Dir? && |dv.children| == 1 && dv.children[0].File? && dv.size == dv.children[0].size
    requires k.Dir? && k.children == [fx, du, dc] && k' == k.(size := fx.size + du.size + dc.size)
    requires top.Dir? && top.children == [dv] && top' == top.(size := dv.size)
    requires size == k'.size + top'.size
    ensures Sized(Dir(name, "", size, DirMode, [k', top'])) && Listed(Dir(name, "", size, DirMode, [k', top']))
    ensures SameButSizes(Dir(name, "", 0, DirMode, [k, top]), Dir(name, "", size, DirMode, [k', top']))
  {
    NestedSizesHold(name, fx, du, dc, dv, k', top', size);
    assert SameButSizes(fx, fx) && SameButSizes(du, du) && SameButSizes(dc, dc) && SameButSizes(dv, dv);
    assert SameButSizes(k, k') && SameButSizes(top, top');
  }

  lemma NestedSizesHold(name: string, fx: Node, du: Node, dc: Node, dv: Node, k': Node, top': Node, size: nat)
    requires fx.File?
    requires du.Dir? && |du.children| == 1 && du.children[0].File? && du.size == du.children[0].size
    requires dc.Dir? && |dc.children| == 1 && dc.children[0].File? && dc.size == dc.children[0].size
    requires dv.Dir? && |dv.children| == 1 && dv.children[0].File? && dv.size == dv.children[0].size
    requires k'.Dir? && k'.children == [fx, du, dc] && k'.size == fx.size + du.size + dc.size
    requires top'.Dir? && top'.children == [dv] && top'.size == dv.size
    requires size == k'.size + top'.size
    ensures Sized(Dir(name, "", size, DirMode, [k', top'])) && Listed(Dir(name, "", size, DirMode, [k', top']))
  {
    assert du.children[..0] == [] && dc.children[..0] == [] && dv.children[..0] == [];
    assert [fx, du, dc][..2] == [fx, du] && [fx, du][..1] == [fx] && [k', top'][..1] == [k'];
    SumOne(fx);
    SumOne(k');
    SumOne(dv);
    assert Sized(du) && Sized(dc) && Sized(dv) && Listed(du) && Listed(dc) && Listed(dv);
    assert Sized(fx) && SizeSum([fx, du, dc]) == k'.size;
    assert Sized(k') && Sized(top');
  }

  /** The loop's tree for that listing, under the root named after the
      repository. */
  lemma NestedLoopTree(es: seq<Entry>, repoPath: string, a: string, x: string, u: string, h: string, c: string,
                       b: string, d: string, v: string, g: string,
                       fx: Node, fh: Node, fb: Node, fg: Node, du: Node, dc: Node, k: Node, top: Node)
    requires '/' in repoPath
    requires '/' !in a && '/' !in x && '/' !in u && '/' !in h && '/' !in c && '/' !in b
    requires '/' !in d && '/' !in v && '/' !in g
    requires a != "" && d != "" && a != d && u != x && c != x && c != u
    requires |es| == 4 && es[0].path == a + "/" + x && es[1].path == a + "/" + u + "/" + h
    requires es[2].path == a + "/" + c + "/" + b && es[3].path == d + "/" + v + "/" + g
    requires es[0].kind == es[1].kind == es[2].kind == es[3].kind == Blob
    requires fx == File(x, es[0].path, es[0].size, es[0].mode) && fh == File(h, es[1].path, es[1].size, es[1].mode)
    requires fb == File(b, es[2].path, es[2].size, es[2].mode) && fg == File(g, es[3].path, es[3].size, es[3].mode)
    requires du == Dir(u, a + "/" + u, es[1].size, DirMode, [fh]) && dc == Dir(c, a + "/" + c, es[2].size, DirMode, [fb])
    requires k == Dir(a, a, es[0].size, DirMode, [fx, du, dc])
    requires top == Dir(d, d, 0, DirMode, [Dir(v, d + "/" + v, es[3].size, DirMode, [fg])])
    ensures Assembled(es, repoPath, true).Ok?
    ensures Assembled(es, repoPath, true).value.0 == Dir(RootName(repoPath), "", 0, DirMode, [k, top])
  {
    NestedInserted(es, RootName(repoPath), a, x, u, h, c, b, d, v, g, fx, fh, fb, fg, du, dc, k, top);
    assert Assembled(es, repoPath, true) == Inserted(es, 4, RootName(repoPath), true);
  }

  /** Any result that, like `buildTree`'s, succeeds with the loop's tree
      resized is, for that listing, the tree described in `NestedBuilt`. */
  lemma NestedResult(es: seq<Entry>, repoPath: string, a: string, x: string, u: string, h: string, c: string,
                     b: string, d: string, v: string, g: string,
                     fx: Node, fh: Node, fb: Node, fg: Node, du: Node, dc: Node, dv: Node, k': Node, top': Node,
                     r: Result<Node, BuildError>)
    requires '/' in repoPath
    requires '/' !in a && '/' !in x && '/' !in u && '/' !in h && '/' !in c && '/' !in b
    requires '/' !in d && '/' !in v && '/' !in g
    requires a != "" && d != "" && a != d && u != x && c != x && c != u
    requires |es| == 4 && es[0].path == a + "/" + x && es[1].path == a + "/" + u + "/" + h
    requires es[2].path == a + "/" + c + "/" + b && es[3].path == d + "/" + v + "/" + g
    requires es[0].kind == es[1].kind == es[2].kind == es[3].kind == Blob
    requires fx == File(x, es[0].path, es[0].size, es[0].mode) && fh == File(h, es[1].path, es[1].size, es[1].mode)
    requires fb == File(b, es[2].path, es[2].size, es[2].mode) && fg == File(g, es[3].path, es[3].size, es[3].mode)
    requires du == Dir(u, a + "/" + u, es[1].size, DirMode, [fh]) && dc == Dir(c, a + "/" + c, es[2].size, DirMode, [fb])
    requires dv == Dir(v, d + "/" + v, es[3].size, DirMode, [fg])
    requires k' == Dir(a, a, es[0].size + es[1].size + es[2].size, DirMode, [fx, du, dc])
    requires top' == Dir(d, d, es[3].size, DirMode, [dv])
    requires r.Ok? <==> Assembled(es, repoPath, true).Ok?
    requires r.Ok? ==> SameButSizes(Assembled(es, repoPath, true).value.0, r.value)
    requires r.Ok? ==> Sized(r.value) && Listed(r.value)
    ensures r == Ok(Dir(RootName(repoPath), "", es[0].size + es[1].size + es[2].size + es[3].size, DirMode, [k', top']))
  {
    var k, top := Dir(a, a, es[0].size, DirMode, [fx, du, dc]), Dir(d, d, 0, DirMode, [dv]);
    var e := Dir(RootName(repoPath), "", es[0].size + es[1].size + es[2].size + es[3].size, DirMode, [k', top']);
    NestedSized(RootName(repoPath), fx, du, dc, dv, k, top, k', top', e.size);
    NestedLoopTree(es, repoPath, a, x, u, h, c, b, d, v, g, fx, fh, fb, fg, du, dc, k, top);
    assert r.Ok?;
    SizedUnique(Dir(RootName(repoPath), "", 0, DirMode, [k, top]), r.value, e);
  }

  /** `buildTree` on the listing `a/x`, `a/u/h`, `a/c/b`, `d/v/g` of blobs
      gives a root holding `a`, then `d`. `a` holds the file `x`, then `u`
      with `h`, then `c` with `b`: its files and its subdirectories in
      listing order, three children in all. `d` holds `v`, which holds
      `g`. Each directory's size is the total of the files below it. */
  method NestedBuilt(es: seq<Entry>, repoPath: string, a: string, x: string, u: string, h: string, c: string,
                     b: string, d: string, v: string, g: string)
    returns (r: Result<Node, BuildError>)
    requires '/' in repoPath
    requires '/' !in a && '/' !in x && '/' !in u && '/' !in h && '/' !in c && '/' !in b
    requires '/' !in d && '/' !in v && '/' !in g
    requires a != "" && d != "" && a != d && u != x && c != x && c != u
    requires |es| == 4 && es[0].path == a + "/" + x && es[1].path == a + "/" + u + "/" + h
    requires es[2].path == a + "/" + c + "/" + b && es[3].path == d + "/" + v + "/" + g
    requires es[0].kind == es[1].kind == es[2].kind == es[3].kind == Blob
    ensures r == Ok(Dir(RootName(repoPath), "", es[0].size + es[1].size + es[2].size + es[3].size, DirMode,
                        [Dir(a, a, es[0].size + es[1].size + es[2].size, DirMode,
                             [File(x, es[0].path, es[0].size, es[0].mode),
                              Dir(u, a + "/" + u, es[1].size, DirMode, [File(h, es[1].path, es[1].size, es[1].mode)]),
                              Dir(c, a + "/" + c, es[2].size, DirMode, [File(b, es[2].path, es[2].size, es[2].mode)])]),
                         Dir(d, d, es[3].size, DirMode,
                             [Dir(v, d + "/" + v, es[3].size, DirMode, [File(g, es[3].path, es[3].size, es[3].mode)])])]))
  {
    r := BuildTree(es, repoPath);
    var fx, fh := File(x, es[0].path, es[0].size, es[0].mode), File(h, es[1].path, es[1].size, es[1].mode);
    var fb, fg := File(b, es[2].path, es[2].size, es[2].mode), File(g, es[3].path, es[3].size, es[3].mode);
    NestedResult(es, repoPath, a, x, u, h, c, b, d, v, g, fx, fh, fb, fg,
                 Dir(u, a + "/" + u, es[1].size, DirMode, [fh]), Dir(c, a + "/" + c, es[2].size, DirMode, [fb]),
                 Dir(v, d + "/" + v, es[3].size, DirMode, [fg]),
                 Dir(a, a, es[0].size + es[1].size + es[2].size, DirMode,
                     [fx, Dir(u, a + "/" + u, es[1].size, DirMode, [fh]), Dir(c, a + "/" + c, es[2].size, DirMode, [fb])]),
                 Dir(d, d, es[3].size, DirMode, [Dir(v, d + "/" + v, es[3].size, DirMode, [fg])]), r);
  }

  /** The nested-directory test's listing: `src` is a directory whose
      `utils` child holds `helper.js` first. `src` has three children
      (`index.js`, `utils`, `components`), not the two the test
      expects. */
  method NestedTest() returns (r: Result<Node, BuildError>)
    ensures r.Ok? && r.value.Dir? && r.value.name == "repo" && |r.value.children| == 2
    ensures r.value.children[0].name == "src" && r.value.children[0].Dir? && |r.value.children[0].children| == 3
    ensures r.value.children[0].children[1].name == "utils" && r.value.children[0].children[1].Dir?
    ensures |r.value.children[0].children[1].children| == 1
    ensures r.value.children[0].children[1].children[0].name == "helper.js"
    ensures r.value.children[1].name == "tests" && r.value.size == 750
  {
    var es := [Entry("src" + "/" + "index.js", Blob, 100, "100644"),
               Entry("src" + "/" + "utils" + "/" + "helper.js", Blob, 200, "100644"),
               Entry("src" + "/" + "components" + "/" + "Button.jsx", Blob, 300, "100644"),
               Entry("tests" + "/" + "unit" + "/" + "test.js", Blob, 150, "100644")];
    TwoSegments("test", "repo");
    r := NestedBuilt(es, "test" + "/" + "repo", "src", "index.js", "utils", "helper.js", "components", "Button.jsx",
                     "tests", "unit", "test.js");
  }
  // ---------------------------------------------------------------------
  // a listing whose parent is never made

  /** The parent loop over the pieces `["", a]` from a fresh root: the empty
      piece reaches the root again, then `a` is made under it. */
  lemma EnsuredLeadingSlash(t: Node, m: map<string, Addr>, a: string)
    requires t == Dir(t.name, "", 0, DirMode, []) && m == map["" := []]
    requires '/' !in a && a != ""
    ensures Inv(t, m) && ChildOf("", Dir(a, a, 0, DirMode, [])) && Coherent(Dir(a, a, 0, DirMode, []))
    ensures EnsuredFrom(t, m, ["", a], 0, "") == Ok(Push(t, m, [], Dir(a, a, 0, DirMode, []), 0))
  {
    InitialBuilt([], true, t.name);
    var parts := ["", a];
    assert PathSoFar(parts, 1) == ChildPath("", "") == "";
    assert EnsureDir(t, m, "", "", "") == Ok((t, m));
    assert EnsuredFrom(t, m, parts, 0, "") == EnsuredFrom(t, m, parts, 1, "");
    EnsuredTopAfterRoot(t, m, a);
  }

  /** The second piece `a` of `["", a]`, reached at the root: `a` is made
      under the root and the loop ends. */
  lemma EnsuredTopAfterRoot(t: Node, m: map<string, Addr>, a: string)
    requires t == Dir(t.name, "", 0, DirMode, []) && m == map["" := []]
    requires Inv(t, m) && '/' !in a && a != "" && PathSoFar(["", a], 1) == ""
    ensures ChildOf("", Dir(a, a, 0, DirMode, [])) && Coherent(Dir(a, a, 0, DirMode, []))
    ensures EnsuredFrom(t, m, ["", a], 1, "") == Ok(Push(t, m, [], Dir(a, a, 0, DirMode, []), 0))
  {
    var parts := ["", a];
    assert PathSoFar(parts, 2) == ChildPath("", a) == a;
    assert At(t, m[""]) == t;
    var p := Push(t, m, [], Dir(a, a, 0, DirMode, []), 0);
    assert EnsureDir(t, m, "", a, a) == Ok(p);
    assert EnsuredFrom(t, m, parts, 1, "") == EnsuredFrom(p.0, p.1, parts, 2, a);
  }

  /** A path that starts with '/', `/a/f`: its first piece is empty, so the
      parent loop reaches the root again and then makes `a`, but never
      `/a`. The lookup of `nodeMap['/a']` finds nothing, and for a blob
      the size is read from that missing parent first (app.js:176-178). */
  lemma LeadingSlashBlob(es: seq<Entry>, name: string, a: string, f: string)
    requires '/' !in a && '/' !in f && a != ""
    requires |es| == 1 && es[0].path == "/" + a + "/" + f && es[0].kind == Blob
    ensures Inserted(es, 1, name, true) == Err(MissingBlobParent("/" + a))
  {
    var e := es[0];
    var t, m := Dir(name, "", 0, DirMode, []), map["" := []];
    InitialBuilt(es, true, name);
    InsertedNext(es, 0, 1, name, true, t, m);
    assert "" + "/" + a + "/" + f == e.path && "" + "/" + a == "/" + a;
    ThreeSegments("", a, f);
    assert DirParts(e.path) == ["", a] && DirPath(e.path) == "/" + a;
    assert "/" + a !in m by {
      assert |"/" + a| > 0;
    }
    EnsuredLeadingSlash(t, m, a);
    SlashApart(a, "", a);
    LocateParentMade(t, m, e.path, Ok(Push(t, m, [], Dir(a, a, 0, DirMode, []), 0)));
    AddEntryLocated(t, m, e, true);
  }
}
