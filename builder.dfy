/** `buildTree` (app.js:127-197): turns GitHub's flat recursive tree
    listing into the nested diagram tree, then aggregates directory sizes.

    The source keeps a dictionary `nodeMap` from paths to node objects and
    pushes children into those objects in place. Here the tree is a value
    and every object reference is an `Addr`: the child indices that lead
    from the root to the object. Objects are never moved or removed, only
    appended to, so an address stays valid and keeps designating the same
    object for the rest of the build. */
module Builder {
  import opened Wrappers
  import opened Text
  import opened Tree

  // ---------------------------------------------------------------------
  // the listing

  /** The `type` field of a listing entry. */
  datatype EntryKind = Blob | TreeKind | Commit

  /** One entry of the recursive listing; an absent `size` is 0. */
  datatype Entry = Entry(path: string, kind: EntryKind, size: nat, mode: string)

  /** The exceptions `buildTree` can raise. */
  datatype BuildError =
    | MissingParent(dirPath: string)   // `nodeMap[dirPath]` is undefined
    | MissingBlobParent(dirPath: string)  // the same, for a blob, whose size is added to it first
    | NoChildList(parentPath: string)  // the parent object has no `children`
    | BareDirSized                     // `calculateSize` iterates a missing `children`

  /** The node an entry becomes. `listTrees` selects the corrected builder,
      which gives a 'tree' entry an empty children array; as written the
      node has none. Submodule ('commit') entries become blobs. */
  function NodeFor(e: Entry, name: string, listTrees: bool): (n: Node)
    ensures n.name == name && n.path == e.path && n.mode == e.mode && n.size == e.size
    ensures n.File? <==> e.kind != TreeKind
    ensures n.Dir? <==> e.kind == TreeKind && listTrees
  {
    if e.kind != TreeKind then File(name, e.path, e.size, e.mode)
    else if listTrees then Dir(name, e.path, e.size, e.mode, [])
    else BareDir(name, e.path, e.size, e.mode)
  }

  /** The file node a non-directory entry contributes. */
  function EntryFile(e: Entry): Node
  {
    var parts := Split(e.path, '/');
    File(parts[|parts| - 1], e.path, e.size, e.mode)
  }

  /** The file nodes of the non-directory entries, in listing order. */
  function EntryFiles(es: seq<Entry>): seq<Node>
  {
    if es == [] then []
    else
      var e := es[|es| - 1];
      EntryFiles(es[..|es| - 1]) + (if e.kind != TreeKind then [EntryFile(e)] else [])
  }

  /** The total size of the non-directory entries. */
  function EntryTotal(es: seq<Entry>): nat
  {
    if es == [] then 0
    else
      var e := es[|es| - 1];
      EntryTotal(es[..|es| - 1]) + (if e.kind != TreeKind then e.size else 0)
  }

  /** The paths of the non-directory entries. */
  function BlobPaths(es: seq<Entry>): set<string>
  {
    set i | 0 <= i < |es| && es[i].kind != TreeKind :: es[i].path
  }

  /** `p + "/"` begins `q`: `q` names something inside a directory `p`. */
  predicate DirPrefixOf(p: string, q: string)
  {
    |p| + 1 <= |q| && q[..|p| + 1] == p + "/"
  }

  /** A listing as GitHub produces it: every path is non-empty and has no
      empty first segment, and no file is used as a directory. */
  predicate WellFormedListing(es: seq<Entry>)
  {
    && (forall i | 0 <= i < |es| :: Split(es[i].path, '/')[0] != "")
    && (forall p, j | p in BlobPaths(es) && 0 <= j < |es| :: !DirPrefixOf(p, es[j].path))
  }

  /** A listing of top-level entries only. */
  predicate FlatListing(es: seq<Entry>)
  {
    forall i | 0 <= i < |es| :: es[i].path != "" && '/' !in es[i].path
  }

  /** The sized node a top-level entry ends up as in the corrected build. */
  function FlatNode(e: Entry): Node
  {
    if e.kind != TreeKind then File(e.path, e.path, e.size, e.mode)
    else Dir(e.path, e.path, 0, e.mode, [])
  }

  function FlatNodes(es: seq<Entry>): (ns: seq<Node>)
    ensures |ns| == |es| && forall i | 0 <= i < |es| :: ns[i] == FlatNode(es[i])
  {
    if es == [] then [] else FlatNodes(es[..|es| - 1]) + [FlatNode(es[|es| - 1])]
  }

  // ---------------------------------------------------------------------
  // object references as addresses (`Addr`, `ValidAddr` and `At` are
  // declared with the tree)

  /** The same object as far as the builder can tell apart: same name,
      path, mode and kind (sizes and children may have grown). */
  predicate SameHead(x: Node, y: Node)
  {
    x.name == y.name && x.path == y.path && x.mode == y.mode
    && x.File? == y.File? && x.Dir? == y.Dir?
  }

  /** `obj.size += extra; obj.children.push(c)` on the object at `a`. */
  function AttachAt(t: Node, a: Addr, c: Node, extra: nat): (r: Node)
    requires ValidAddr(t, a) && At(t, a).Dir?
    ensures SameHead(t, r)
    decreases a
  {
    if a == [] then t.(size := t.size + extra, children := t.children + [c])
    else t.(children := t.children[a[0] := AttachAt(t.children[a[0]], a[1..], c, extra)])
  }

  /** Attaching keeps every address valid and designating the same object. */
  lemma {:induction false} AttachKeeps(t: Node, a: Addr, c: Node, extra: nat, b: Addr)
    requires ValidAddr(t, a) && At(t, a).Dir? && ValidAddr(t, b)
    ensures ValidAddr(AttachAt(t, a, c, extra), b)
    ensures SameHead(At(t, b), At(AttachAt(t, a, c, extra), b))
    decreases b
  {
    var r := AttachAt(t, a, c, extra);
    if b != [] {
      if a != [] && a[0] == b[0] {
        AttachKeeps(t.children[a[0]], a[1..], c, extra, b[1..]);
      } else {
        assert r.children[b[0]] == t.children[b[0]];
      }
    }
  }

  /** The attached child sits at the parent's address extended by its index. */
  lemma {:induction false} AttachNew(t: Node, a: Addr, c: Node, extra: nat)
    requires ValidAddr(t, a) && At(t, a).Dir?
    ensures ValidAddr(AttachAt(t, a, c, extra), a + [|At(t, a).children|])
    ensures At(AttachAt(t, a, c, extra), a + [|At(t, a).children|]) == c
    decreases a
  {
    var k := |At(t, a).children|;
    if a == [] {
      assert [k][1..] == [];
    } else {
      AttachNew(t.children[a[0]], a[1..], c, extra);
      assert (a + [k])[1..] == a[1..] + [k];
    }
  }

  /** The files of the tree gain exactly the files of the attached child,
      at some position. */
  lemma {:induction false} AttachFiles(t: Node, a: Addr, c: Node, extra: nat)
    returns (x: seq<Node>, y: seq<Node>)
    requires ValidAddr(t, a) && At(t, a).Dir?
    ensures Files(t) == x + y
    ensures Files(AttachAt(t, a, c, extra)) == x + Files(c) + y
    decreases a
  {
    var cs := t.children;
    if a == [] {
      FilesOfSnocNode(cs, c);
      x, y := Files(t), [];
    } else {
      var i := a[0];
      var ci' := AttachAt(cs[i], a[1..], c, extra);
      assert AttachAt(t, a, c, extra) == t.(children := cs[i := ci']);
      var x', y' := AttachFiles(cs[i], a[1..], c, extra);
      x, y := FilesReplaced(cs, i, ci', x', Files(c), y');
    }
  }

  /** Replacing a child whose files are `x' + y'` by one whose files are
      `x' + fs + y'` inserts `fs` into the files of the list. */
  lemma FilesReplaced(cs: seq<Node>, i: nat, n: Node, x': seq<Node>, fs: seq<Node>, y': seq<Node>)
    returns (x: seq<Node>, y: seq<Node>)
    requires i < |cs| && Files(cs[i]) == x' + y' && Files(n) == x' + fs + y'
    ensures FilesOf(cs) == x + y
    ensures FilesOf(cs[i := n]) == x + fs + y
  {
    var before, after := FilesOf(cs[..i]), FilesOf(cs[i + 1..]);
    FilesOfAt(cs, i);
    FilesOfAround(cs, i, n);
    Splice(FilesOf(cs), FilesOf(cs[i := n]), before, Files(cs[i]), Files(n), after, x', fs, y');
    x := before + x';
    y := y' + after;
  }

  /** The files of a list around one of its elements. */
  lemma FilesOfAt(cs: seq<Node>, i: nat)
    requires i < |cs|
    ensures FilesOf(cs) == FilesOf(cs[..i]) + Files(cs[i]) + FilesOf(cs[i + 1..])
  {
    assert cs[i := cs[i]] == cs;
    FilesOfAround(cs, i, cs[i]);
  }

  lemma Splice(fa: seq<Node>, fb: seq<Node>, before: seq<Node>, mid: seq<Node>, mid': seq<Node>,
               after: seq<Node>, x: seq<Node>, fs: seq<Node>, y: seq<Node>)
    requires fa == before + mid + after && mid == x + y
    requires fb == before + mid' + after && mid' == x + fs + y
    ensures fa == (before + x) + (y + after)
    ensures fb == (before + x) + fs + (y + after)
  {
  }

  /** The files of a list with one more element. */
  lemma FilesOfSnocNode(cs: seq<Node>, c: Node)
    ensures FilesOf(cs + [c]) == FilesOf(cs) + Files(c)
  {
    assert [c][1..] == [];
    FilesOfAppend(cs, [c]);
  }

  /** The files of a list with one element replaced. */
  lemma FilesOfAround(cs: seq<Node>, i: nat, n: Node)
    requires i < |cs|
    ensures FilesOf(cs[i := n]) == FilesOf(cs[..i]) + Files(n) + FilesOf(cs[i + 1..])
  {
    var ds := cs[i := n];
    assert ds == cs[..i] + ([n] + cs[i + 1..]);
    FilesOfAppend(cs[..i], [n] + cs[i + 1..]);
    assert ([n] + cs[i + 1..])[1..] == cs[i + 1..];
  }

  /** Attaching a well-formed child keeps the tree coherent. */
  lemma {:induction false} AttachCoherent(t: Node, a: Addr, c: Node, extra: nat)
    requires ValidAddr(t, a) && At(t, a).Dir?
    requires Coherent(t) && Coherent(c) && ChildOf(At(t, a).path, c)
    ensures Coherent(AttachAt(t, a, c, extra))
    decreases a
  {
    if a != [] {
      AttachCoherent(t.children[a[0]], a[1..], c, extra);
    }
  }

  /** The tree is free of bare directories after the attach exactly when it
      and the attached child were before. */
  lemma {:induction false} AttachListed(t: Node, a: Addr, c: Node, extra: nat)
    requires ValidAddr(t, a) && At(t, a).Dir?
    ensures Listed(AttachAt(t, a, c, extra)) == (Listed(t) && Listed(c))
    decreases a
  {
    var r := AttachAt(t, a, c, extra);
    var cs := t.children;
    if a == [] {
      assert forall j | 0 <= j < |cs| :: r.children[j] == cs[j];
      assert r.children[|cs|] == c;
    } else {
      var i := a[0];
      AttachListed(cs[i], a[1..], c, extra);
      assert r.children == cs[i := AttachAt(cs[i], a[1..], c, extra)];
      if Listed(t) && Listed(c) {
        assert Listed(r.children[i]);
        assert forall j | 0 <= j < |cs| :: Listed(r.children[j]);
      } else if !Listed(c) {
        assert !Listed(r.children[i]);
      } else {
        var j :| 0 <= j < |cs| && !Listed(cs[j]);
        if j == i {
          assert !Listed(r.children[i]);
        } else {
          assert !Listed(r.children[j]);
        }
      }
    }
  }

  // ---------------------------------------------------------------------
  // calculateSize (app.js:185-194)

  /** Sets every directory's size to the total of its children's sizes and
      returns the root's. `None` stands for the TypeError a 'tree' object
      without a children array raises. */
  method CalculateSize(n: Node) returns (r: Option<Node>)
    ensures r.Some? <==> Listed(n)
    ensures r.Some? ==> SameButSizes(n, r.value) && Sized(r.value)
    ensures r.Some? ==> r.value.size == FileTotal(n)
    decreases n, 1
  {
    match n
    case File(_, _, _, _) =>
      assert [n][..0] == [];
      assert Files(n) == [n];
      assert SumSizes([n]) == n.size;
      r := Some(n);
    case BareDir(_, _, _, _) =>
      r := None;
    case Dir(name, path, _, mode, cs) =>
      var kids := SizeChildren(cs);
      if kids.None? {
        return None;
      }
      assert cs[..|cs|] == cs;
      r := Some(Dir(name, path, SizeSum(kids.value), mode, kids.value));
  }

  /** The loop of `calculateSize` over one children array. */
  method SizeChildren(cs: seq<Node>) returns (r: Option<seq<Node>>)
    ensures r.Some? <==> forall j | 0 <= j < |cs| :: Listed(cs[j])
    ensures r.Some? ==> |r.value| == |cs|
    ensures r.Some? ==> forall j | 0 <= j < |cs| :: SameButSizes(cs[j], r.value[j]) && Sized(r.value[j])
    ensures r.Some? ==> SizeSum(r.value) == SumSizes(FilesOf(cs))
    decreases cs, 0
  {
    var total := 0;
    var kids: seq<Node> := [];
    for i := 0 to |cs|
      invariant |kids| == i
      invariant forall j | 0 <= j < i :: Listed(cs[j]) && SameButSizes(cs[j], kids[j]) && Sized(kids[j])
      invariant total == SizeSum(kids) == SumSizes(FilesOf(cs[..i]))
    {
      var c := CalculateSize(cs[i]);
      if c.None? {
        return None;
      }
      SizeStep(cs, i, kids, c.value);
      KidsStep(cs, i, kids, c.value);
      kids := kids + [c.value];
      total := total + c.value.size;
    }
    assert cs[..|cs|] == cs;
    r := Some(kids);
  }

  lemma KidsStep(cs: seq<Node>, i: nat, kids: seq<Node>, k: Node)
    requires i < |cs| && |kids| == i
    requires forall j | 0 <= j < i :: Listed(cs[j]) && SameButSizes(cs[j], kids[j]) && Sized(kids[j])
    requires Listed(cs[i]) && SameButSizes(cs[i], k) && Sized(k)
    ensures forall j | 0 <= j < i + 1 :: Listed(cs[j]) && SameButSizes(cs[j], (kids + [k])[j]) && Sized((kids + [k])[j])
  {
    forall j | 0 <= j < i + 1 ensures Listed(cs[j]) && SameButSizes(cs[j], (kids + [k])[j]) && Sized((kids + [k])[j]) {
      if j < i {
        assert (kids + [k])[j] == kids[j];
      }
    }
  }

  lemma SizeStep(cs: seq<Node>, i: nat, kids: seq<Node>, k: Node)
    requires i < |cs| && |kids| == i
    requires SizeSum(kids) == SumSizes(FilesOf(cs[..i]))
    requires k.size == FileTotal(cs[i])
    ensures SizeSum(kids + [k]) == SumSizes(FilesOf(cs[..i + 1]))
  {
    FilesOfSnoc(cs, i);
    SumsAppend(FilesOf(cs[..i]), Files(cs[i]));
    assert (kids + [k])[..i] == kids;
  }

  // ---------------------------------------------------------------------
  // paths (app.js:140-150)

  lemma DirPrefixOfExtended(p: string, rest: string)
    ensures DirPrefixOf(p, p + "/" + rest)
  {
    assert (p + "/" + rest)[..|p| + 1] == p + "/";
  }

  lemma DirPrefixOfLonger(p: string, q: string, rest: string)
    requires DirPrefixOf(p, q)
    ensures DirPrefixOf(p, q + rest)
  {
    assert (q + rest)[..|p| + 1] == q[..|p| + 1];
  }

  /** A directory prefix of a string is one of every extension of it. */
  lemma DirPrefixOfGrows(p: string, q: string, rest: string)
    ensures DirPrefixOf(p, q) ==> DirPrefixOf(p, q + rest)
  {
    if DirPrefixOf(p, q) {
      DirPrefixOfLonger(p, q, rest);
    }
  }

  /** The path built from the first `j` pieces is a directory prefix of the
      path built from all of them. */
  lemma JoinDirPrefix(parts: seq<string>, j: nat)
    requires 1 <= j < |parts|
    ensures DirPrefixOf(Join(parts[..j], '/'), Join(parts, '/'))
  {
    JoinSplitAt(parts, j, '/');
    DirPrefixOfExtended(Join(parts[..j], '/'), Join(parts[j..], '/'));
  }

  /** The path of a directory named `name` inside the one at `parentPath`
      (app.js:150). */
  function ChildPath(parentPath: string, name: string): string
  {
    if parentPath != "" then parentPath + "/" + name else name
  }

  /** The path the parent loop has reached after `j` pieces. */
  function PathSoFar(parts: seq<string>, j: nat): string
    requires j <= |parts|
  {
    if j == 0 then "" else ChildPath(PathSoFar(parts, j - 1), parts[j - 1])
  }

  /** When the first piece is not empty, the path reached after `j >= 1`
      pieces is their join. */
  lemma {:induction false} PathSoFarJoin(parts: seq<string>, j: nat)
    requires 1 <= j <= |parts| && parts[0] != ""
    ensures PathSoFar(parts, j) == Join(parts[..j], '/')
  {
    if j == 1 {
      assert parts[..1] == [parts[0]];
    } else {
      PathSoFarJoin(parts, j - 1);
      NextPath(parts, j - 1, PathSoFar(parts, j - 1));
    }
  }

  /** One more piece extends the join of the pieces before it. */
  lemma NextPath(parts: seq<string>, j: nat, cur: string)
    requires 1 <= j < |parts| && parts[0] != ""
    requires cur == Join(parts[..j], '/')
    ensures ChildPath(cur, parts[j]) == Join(parts[..j + 1], '/')
  {
    assert parts[..j] + [parts[j]] == parts[..j + 1];
    JoinStartsWithFirst(parts[..j], '/');
    JoinSnoc(parts[..j], parts[j], '/');
  }

  /** The path reached on a prefix of the pieces is reached on the pieces. */
  lemma {:induction false} PathSoFarPrefix(parts: seq<string>, n: nat, i: nat)
    requires i <= n <= |parts|
    ensures PathSoFar(parts[..n], i) == PathSoFar(parts, i)
  {
    if i > 0 {
      PathSoFarPrefix(parts, n, i - 1);
      assert parts[..n][i - 1] == parts[i - 1];
    }
  }

  /** The last segment of a path (`fileName`, app.js:141). */
  function LastSegment(path: string): (name: string)
    ensures '/' !in name
  {
    var parts := Split(path, '/');
    parts[|parts| - 1]
  }

  /** The segments of a path but the last (`pathParts.slice(0, -1)`,
      app.js:142 and 148). */
  function DirParts(path: string): (d: seq<string>)
    ensures forall i | 0 <= i < |d| :: '/' !in d[i]
  {
    var parts := Split(path, '/');
    parts[..|parts| - 1]
  }

  /** All but the last segment of a path (`dirPath`, app.js:142). */
  function DirPath(path: string): string
  {
    Join(DirParts(path), '/')
  }

  /** A path is its directory path extended by its last segment. */
  lemma PathShape(path: string)
    ensures ChildOf(DirPath(path), File(LastSegment(path), path, 0, ""))
    ensures DirPath(path) != "" ==> DirPrefixOf(DirPath(path), path)
    ensures '/' !in path ==> DirPath(path) == "" && LastSegment(path) == path
  {
    var parts := Split(path, '/');
    if |parts| >= 2 {
      PathSplitsAtLast(path);
      Regroup3(DirPath(path), "/", LastSegment(path));
      assert path[|DirPath(path)|] == '/';
      DirPrefixOfExtended(DirPath(path), LastSegment(path));
    } else {
      JoinSplit(path, '/');
      assert parts[..0] == [] && Join(parts, '/') == parts[0];
    }
  }

  /** What lies above a path's directory lies above the path. */
  lemma NotAboveParent(p: string, path: string)
    requires !DirPrefixOf(p, path)
    ensures !DirPrefixOf(p, DirPath(path))
  {
    if |Split(path, '/')| >= 2 {
      PathSplitsAtLast(path);
      DirPrefixOfGrows(p, DirPath(path), "/" + LastSegment(path));
    }
  }

  /** A path with a `/` is its directory path, a `/` and its last segment. */
  lemma PathSplitsAtLast(path: string)
    requires |Split(path, '/')| >= 2
    ensures path == DirPath(path) + ("/" + LastSegment(path))
  {
    var parts := Split(path, '/');
    var init, last := parts[..|parts| - 1], parts[|parts| - 1];
    assert DirPath(path) == Join(init, '/');
    assert LastSegment(path) == last;
    JoinSplit(path, '/');
    JoinInitLast(parts, '/');
    Regroup3(Join(init, '/'), "/", last);
  }

  lemma Regroup3(a: string, b: string, c: string)
    ensures a + b + c == a + (b + c)
  {
  }

  /** A child's directory path is the path of the object that holds it,
      and its last segment is its name. */
  lemma ChildDirPath(parentPath: string, c: Node)
    requires ChildOf(parentPath, c)
    ensures DirPath(c.path) == parentPath && LastSegment(c.path) == c.name
  {
    if c.path == parentPath + "/" + c.name {
      assert c.path == parentPath + ['/'] + c.name;
      SplitSnoc(parentPath, c.name, '/');
      var ps := Split(parentPath, '/');
      assert (ps + [c.name])[..|ps|] == ps;
      JoinSplit(parentPath, '/');
    } else {
      assert Split(c.path, '/') == [c.path];
    }
  }

  /** The paths the parent loop reaches after the pieces `j + 1` to
      `|parts|`. */
  function Steps(parts: seq<string>, j: nat): set<string>
    requires j <= |parts|
  {
    set i | j < i <= |parts| :: PathSoFar(parts, i)
  }

  /** The directories above a path, spelled as the parent loop spells
      them: those it makes when `nodeMap` holds none of them. */
  function Dirs(path: string): set<string>
  {
    Steps(DirParts(path), 0)
  }

  /** Past piece `j`, the loop reaches one more path. */
  lemma StepsNext(parts: seq<string>, j: nat)
    requires j < |parts|
    ensures Steps(parts, j) == {PathSoFar(parts, j + 1)} + Steps(parts, j + 1)
  {
    forall p | p in Steps(parts, j) ensures p in {PathSoFar(parts, j + 1)} + Steps(parts, j + 1) {
      var i :| j < i <= |parts| && p == PathSoFar(parts, i);
      if i > j + 1 {
        assert p in Steps(parts, j + 1);
      }
    }
  }

  /** The path reached after `j` pieces splits back into those pieces. */
  lemma SplitPathSoFar(parts: seq<string>, j: nat)
    requires 1 <= j <= |parts| && parts[0] != ""
    requires forall i | 0 <= i < |parts| :: '/' !in parts[i]
    ensures Split(PathSoFar(parts, j), '/') == parts[..j]
  {
    PathSoFarJoin(parts, j);
    SplitJoin(parts[..j], '/');
  }

  /** The directories of the path reached after `j` pieces are the paths
      reached on the pieces before the last. */
  lemma DirsOfStep(parts: seq<string>, j: nat)
    requires 1 <= j <= |parts| && parts[0] != ""
    requires forall i | 0 <= i < |parts| :: '/' !in parts[i]
    ensures Dirs(PathSoFar(parts, j)) == Steps(parts[..j - 1], 0)
  {
    SplitPathSoFar(parts, j);
    assert DirParts(PathSoFar(parts, j)) == parts[..j - 1];
  }

  /** A path reached on a prefix of the pieces is reached on the pieces. */
  lemma StepsOfPrefix(parts: seq<string>, n: nat, p: string) returns (i: nat)
    requires n <= |parts| && p in Steps(parts[..n], 0)
    ensures 0 < i <= n && p == PathSoFar(parts, i)
  {
    i :| 0 < i <= n && p == PathSoFar(parts[..n], i);
    PathSoFarPrefix(parts, n, i);
  }

  /** What lies above a directory of a path lies above the path. */
  lemma DirsOfDirs(path: string, q: string)
    requires Split(path, '/')[0] != "" && q in Dirs(path)
    ensures Dirs(q) <= Dirs(path)
  {
    var d := DirParts(path);
    var j :| 0 < j <= |d| && q == PathSoFar(d, j);
    DirsOfStep(d, j);
    forall p | p in Dirs(q) ensures p in Dirs(path) {
      var i := StepsOfPrefix(d, j - 1, p);
      assert p in Steps(d, 0);
    }
  }

  /** The directories of a top-level path are none; below the top level
      they are those of its directory path and that path itself. */
  lemma DirsOfDirPath(path: string)
    requires Split(path, '/')[0] != ""
    ensures DirParts(path) == [] ==> Dirs(path) == {} && DirPath(path) == ""
    ensures DirParts(path) != [] ==> DirPath(path) != "" && Dirs(path) == Dirs(DirPath(path)) + {DirPath(path)}
  {
    var d := DirParts(path);
    if d != [] {
      PathSoFarJoin(d, |d|);
      assert d[..|d|] == d;
      DirsOfStep(d, |d|);
      JoinStartsWithFirst(d, '/');
      forall p ensures p in Dirs(path) <==> p in Dirs(DirPath(path)) + {DirPath(path)} {
        DirsOfDirPathAt(path, p);
      }
    }
  }

  lemma DirsOfDirPathAt(path: string, p: string)
    requires Split(path, '/')[0] != "" && DirParts(path) != []
    requires DirPath(path) == PathSoFar(DirParts(path), |DirParts(path)|)
    requires Dirs(DirPath(path)) == Steps(DirParts(path)[..|DirParts(path)| - 1], 0)
    ensures p in Dirs(path) <==> p in Dirs(DirPath(path)) || p == DirPath(path)
  {
    var d := DirParts(path);
    var n := |d|;
    if p in Dirs(path) {
      var i :| 0 < i <= n && p == PathSoFar(d, i);
      if i < n {
        PathSoFarPrefix(d, n - 1, i);
        assert p in Steps(d[..n - 1], 0);
      }
    }
    if p in Dirs(DirPath(path)) {
      var i := StepsOfPrefix(d, n - 1, p);
      assert p in Steps(d, 0);
    }
    if p == DirPath(path) {
      assert p in Steps(d, 0);
    }
  }

  /** The directories of a path are directory prefixes of it. */
  lemma DirsAbove(path: string, p: string)
    requires Split(path, '/')[0] != "" && p in Dirs(path)
    ensures DirPrefixOf(p, path)
  {
    var parts := Split(path, '/');
    var d := DirParts(path);
    var j :| 0 < j <= |d| && p == PathSoFar(d, j);
    PathSoFarJoin(d, j);
    assert d[..j] == parts[..j];
    JoinSplit(path, '/');
    JoinDirPrefix(parts, j);
  }

  // ---------------------------------------------------------------------
  // what a listing names

  /** The paths an entry makes `nodeMap` hold: its own and its directories'. */
  function Introduced(e: Entry): set<string>
  {
    {e.path} + Dirs(e.path)
  }

  /** The paths the first `k` entries make `nodeMap` hold. */
  function Named(es: seq<Entry>, k: nat): set<string>
    requires k <= |es|
  {
    if k == 0 then {} else Named(es, k - 1) + Introduced(es[k - 1])
  }

  /** GitHub lists a directory before what it holds and every path once:
      no entry's path is one an earlier entry already made `nodeMap` hold. */
  predicate Ordered(es: seq<Entry>)
  {
    forall i, j | 0 <= j < i < |es| :: es[i].path !in Introduced(es[j])
  }

  /** A listing in the form GitHub sends it. */
  predicate GitHubListing(es: seq<Entry>)
  {
    WellFormedListing(es) && Ordered(es)
  }

  /** A longer prefix of the listing names at least what a shorter one
      does. */
  lemma NamedMono(es: seq<Entry>, k: nat, k': nat)
    requires k' <= |es|
    ensures k <= k' ==> Named(es, k) <= Named(es, k')
  {
    if k <= k' {
      forall p | p in Named(es, k) ensures p in Named(es, k') {
        NamedHasWitness(es, k, p);
        var j :| 0 <= j < k && p in Introduced(es[j]);
        WitnessNamed(es, k', j, p);
      }
    }
  }

  /** A subset of either of two sets is a subset of their union. */
  lemma SubsetOfUnion<T>(a: set<T>, b: set<T>, c: set<T>)
    requires a <= b || a <= c
    ensures a <= b + c
  {
  }

  /** A path is named by a prefix exactly when one of its entries names it. */
  lemma {:induction false} NamedWitness(es: seq<Entry>, k: nat, p: string)
    requires k <= |es|
    ensures p in Named(es, k) <==> exists j | 0 <= j < k :: p in Introduced(es[j])
    decreases k
  {
    if p in Named(es, k) {
      NamedHasWitness(es, k, p);
    }
    if exists j | 0 <= j < k :: p in Introduced(es[j]) {
      var j :| 0 <= j < k && p in Introduced(es[j]);
      WitnessNamed(es, k, j, p);
    }
  }

  /** What an entry names, every longer prefix names. */
  lemma {:induction false} WitnessNamed(es: seq<Entry>, k: nat, j: nat, p: string)
    requires j < k <= |es| && p in Introduced(es[j])
    ensures p in Named(es, k)
    decreases k
  {
    if j < k - 1 {
      WitnessNamed(es, k - 1, j, p);
    }
  }

  /** What a prefix names, one of its entries names. */
  lemma {:induction false} NamedHasWitness(es: seq<Entry>, k: nat, p: string)
    requires k <= |es| && p in Named(es, k)
    ensures exists j | 0 <= j < k :: p in Introduced(es[j])
    decreases k
  {
    if p !in Introduced(es[k - 1]) {
      NamedHasWitness(es, k - 1, p);
      var j :| 0 <= j < k - 1 && p in Introduced(es[j]);
      assert 0 <= j < k && p in Introduced(es[j]);
    }
  }

  /** In an ordered listing every entry's path is new when it comes. */
  lemma OrderedFresh(es: seq<Entry>, k: nat)
    requires Ordered(es) && k < |es|
    ensures es[k].path !in Named(es, k)
  {
    NamedWitness(es, k, es[k].path);
  }

  /** In an ordered listing no two entries share a path. */
  lemma OrderedBlobPath(es: seq<Entry>, k: nat)
    requires Ordered(es) && k < |es|
    ensures es[k].path in BlobPaths(es) <==> es[k].kind != TreeKind
  {
    if es[k].path in BlobPaths(es) {
      var i :| 0 <= i < |es| && es[i].kind != TreeKind && es[i].path == es[k].path;
      assert es[i].path in Introduced(es[i]) && es[k].path in Introduced(es[k]);
      assert i == k;
    }
  }

  /** `s` holds the directories above each of its paths. */
  ghost predicate DirClosed(s: set<string>)
  {
    forall q | q in s :: Dirs(q) <= s
  }

  /** The union of two sets that hold the directories above their paths
      holds them too. */
  lemma DirClosedUnion(a: set<string>, b: set<string>)
    requires DirClosed(a) && DirClosed(b)
    ensures DirClosed(a + b)
  {
    forall q | q in a + b ensures Dirs(q) <= a + b {
      SubsetOfUnion(Dirs(q), a, b);
    }
  }

  /** The paths a listing names hold the directories above them. */
  lemma {:induction false} NamedClosed(es: seq<Entry>, k: nat)
    requires k <= |es| && forall i | 0 <= i < |es| :: Split(es[i].path, '/')[0] != ""
    ensures DirClosed(Named(es, k))
  {
    if k > 0 {
      NamedClosed(es, k - 1);
      IntroducedClosed(es[k - 1]);
      DirClosedUnion(Named(es, k - 1), Introduced(es[k - 1]));
    }
  }

  /** The paths an entry names hold the directories above them. */
  lemma IntroducedClosed(e: Entry)
    requires Split(e.path, '/')[0] != ""
    ensures DirClosed(Introduced(e))
  {
    forall q | q in Introduced(e) ensures Dirs(q) <= Introduced(e) {
      if q != e.path {
        DirsOfDirs(e.path, q);
      }
    }
  }

  /** The empty path is one empty segment. */
  lemma SplitEmpty()
    ensures Split("", '/') == [""]
  {
  }

  /** No entry's path is empty. */
  lemma NoEmptyPath(es: seq<Entry>)
    requires WellFormedListing(es)
    ensures "" !in BlobPaths(es)
  {
    SplitEmpty();
  }

  /** The listing names `p` no later than `q`: every prefix that names `q`
      names `p`. */
  predicate NamedNoLater(es: seq<Entry>, p: string, q: string)
  {
    forall k | 0 <= k <= |es| :: q in Named(es, k) ==> p in Named(es, k)
  }

  /** The paths `ps` come in the order in which the listing first names
      them. */
  predicate InListingOrder(es: seq<Entry>, ps: seq<string>)
  {
    forall i, j | 0 <= i < j < |ps| :: NamedNoLater(es, ps[i], ps[j])
  }

  /** A path first named by entry `k` comes no earlier than one the first
      `k + 1` entries name. */
  lemma FreshAfter(es: seq<Entry>, k: nat, p: string, q: string)
    requires k < |es| && p in Named(es, k + 1) && q !in Named(es, k)
    ensures NamedNoLater(es, p, q)
  {
    forall k' | 0 <= k' <= |es| && q in Named(es, k') ensures p in Named(es, k') {
      NamedMono(es, k', k);
      NamedMono(es, k + 1, k');
    }
  }

  /** Paths first named by entry `k`, appended after paths named before,
      keep the listing order. */
  lemma InOrderAppend(es: seq<Entry>, k: nat, ps: seq<string>, qs: seq<string>)
    requires k < |es| && InListingOrder(es, ps) && |ps| <= |qs| && qs[..|ps|] == ps
    requires forall i | 0 <= i < |ps| :: ps[i] in Named(es, k)
    requires forall i | |ps| <= i < |qs| :: qs[i] in Named(es, k + 1) && qs[i] !in Named(es, k)
    ensures InListingOrder(es, qs)
  {
    NamedMono(es, k, k + 1);
    forall i, j | 0 <= i < j < |qs| ensures NamedNoLater(es, qs[i], qs[j]) {
      if j < |ps| {
        assert qs[i] == ps[i] && qs[j] == ps[j];
      } else {
        if i < |ps| {
          assert qs[i] == ps[i];
        }
        FreshAfter(es, k, qs[i], qs[j]);
      }
    }
  }

  // ---------------------------------------------------------------------
  // the builder's state (app.js:129-137)

  /** The builder's state: the tree under construction and `nodeMap`. The
      root stays a directory with the empty path, `nodeMap` always has the
      key "" and maps every key to an object whose path is that key, and
      every child is a well-formed child of the object that holds it. */
  predicate Inv(t: Node, m: map<string, Addr>)
  {
    && t.Dir? && t.path == ""
    && "" in m
    && (forall p | p in m :: ValidAddr(t, m[p]) && At(t, m[p]).path == p)
    && Coherent(t)
  }

  /** `nodeMap` records every object of the tree: the path of each object
      is a key that leads back to it. With `Inv`, keys and objects then
      correspond one to one. */
  ghost predicate Indexed(t: Node, m: map<string, Addr>)
  {
    forall a | ValidAddr(t, a) :: At(t, a).path in m && m[At(t, a).path] == a
  }

  /** The paths of an object's children, in order. */
  function ChildPaths(n: Node): (ps: seq<string>)
    ensures |ps| == (if n.Dir? then |n.children| else 0)
  {
    if n.Dir? then seq(|n.children|, i requires 0 <= i < |n.children| => n.children[i].path) else []
  }

  /** An object the builder creates: it has no children yet. */
  predicate Leaf(c: Node)
  {
    c.Dir? ==> c.children == []
  }

  /** `qs` is `ps` followed by paths `m'` records and `m` does not. */
  predicate Appended(ps: seq<string>, qs: seq<string>, m: map<string, Addr>, m': map<string, Addr>)
  {
    && |ps| <= |qs| && qs[..|ps|] == ps
    && forall i | |ps| <= i < |qs| :: qs[i] in m' && qs[i] !in m
  }

  /** From `(t, m)` to `(t', m')` every recorded object keeps its children
      and gains new objects only, at the end; an object recorded anew holds
      new objects only. */
  ghost predicate Grown(t: Node, m: map<string, Addr>, t': Node, m': map<string, Addr>)
    requires Inv(t, m) && Inv(t', m')
  {
    && m.Keys <= m'.Keys
    && (forall p | p in m :: Appended(ChildPaths(At(t, m[p])), ChildPaths(At(t', m'[p])), m, m'))
    && (forall p | p in m' && p !in m :: Appended([], ChildPaths(At(t', m'[p])), m, m'))
  }

  lemma GrownRefl(t: Node, m: map<string, Addr>)
    requires Inv(t, m)
    ensures Grown(t, m, t, m)
  {
    forall p | p in m ensures Appended(ChildPaths(At(t, m[p])), ChildPaths(At(t, m[p])), m, m) {
      var ps := ChildPaths(At(t, m[p]));
      assert ps[..|ps|] == ps;
    }
  }

  lemma AppendedTrans(ps: seq<string>, qs: seq<string>, rs: seq<string>,
                      m0: map<string, Addr>, m1: map<string, Addr>, m2: map<string, Addr>)
    requires m0.Keys <= m1.Keys <= m2.Keys
    requires Appended(ps, qs, m0, m1) && Appended(qs, rs, m1, m2)
    ensures Appended(ps, rs, m0, m2)
  {
    assert rs[..|ps|] == qs[..|qs|][..|ps|];
    forall i | |ps| <= i < |rs| ensures rs[i] in m2 && rs[i] !in m0 {
      if i < |qs| {
        assert rs[i] == rs[..|qs|][i];
      }
    }
  }

  lemma GrownTrans(t0: Node, m0: map<string, Addr>, t1: Node, m1: map<string, Addr>,
                   t2: Node, m2: map<string, Addr>)
    requires Inv(t0, m0) && Inv(t1, m1) && Inv(t2, m2)
    requires Grown(t0, m0, t1, m1) && Grown(t1, m1, t2, m2)
    ensures Grown(t0, m0, t2, m2)
  {
    forall p | p in m0 ensures Appended(ChildPaths(At(t0, m0[p])), ChildPaths(At(t2, m2[p])), m0, m2) {
      AppendedTrans(ChildPaths(At(t0, m0[p])), ChildPaths(At(t1, m1[p])), ChildPaths(At(t2, m2[p])), m0, m1, m2);
    }
    forall p | p in m2 && p !in m0 ensures Appended([], ChildPaths(At(t2, m2[p])), m0, m2) {
      if p in m1 {
        AppendedTrans([], ChildPaths(At(t1, m1[p])), ChildPaths(At(t2, m2[p])), m0, m1, m2);
      }
    }
  }

  /** `(t, m)` is `(t0, m0)` with empty directories added: every recorded
      object is still recorded at the same place with the same head, every
      newly recorded object is a directory, and the files are unchanged. */
  predicate Extends(t0: Node, m0: map<string, Addr>, t: Node, m: map<string, Addr>)
    requires Inv(t0, m0) && Inv(t, m)
  {
    && SameHead(t0, t)
    && (forall p | p in m0 :: p in m && m[p] == m0[p] && SameHead(At(t0, m0[p]), At(t, m[p])))
    && (forall p | p in m && p !in m0 :: At(t, m[p]).Dir?)
    && Files(t) == Files(t0) && Listed(t) == Listed(t0)
  }

  lemma ExtendsTrans(t0: Node, m0: map<string, Addr>, t1: Node, m1: map<string, Addr>,
                     t2: Node, m2: map<string, Addr>)
    requires Inv(t0, m0) && Inv(t1, m1) && Inv(t2, m2)
    requires Extends(t0, m0, t1, m1) && Extends(t1, m1, t2, m2)
    ensures Extends(t0, m0, t2, m2)
  {
  }

  /** No file that `nodeMap` holds is used as a directory of `path`. */
  predicate NoFileAbove(t: Node, m: map<string, Addr>, path: string)
    requires Inv(t, m)
  {
    forall p | p in m && !At(t, m[p]).Dir? :: !DirPrefixOf(p, path)
  }

  /** Adding directories adds no file above any path. */
  lemma NoFileAboveKept(t: Node, m: map<string, Addr>, t': Node, m': map<string, Addr>, path: string)
    requires Inv(t, m) && Inv(t', m') && Extends(t, m, t', m') && NoFileAbove(t, m, path)
    ensures NoFileAbove(t', m', path)
  {
    forall p | p in m' && !At(t', m'[p]).Dir? ensures !DirPrefixOf(p, path) {
      assert p in m && SameHead(At(t, m[p]), At(t', m'[p]));
    }
  }

  /** No recorded file lies above the directory of a path above which no
      recorded file lies. */
  lemma NoFileAboveDir(t: Node, m: map<string, Addr>, path: string)
    requires Inv(t, m)
    ensures NoFileAbove(t, m, path) ==> NoFileAbove(t, m, DirPath(path))
  {
    forall p | p in m && !At(t, m[p]).Dir? && !DirPrefixOf(p, path) ensures !DirPrefixOf(p, DirPath(path)) {
      NotAboveParent(p, path);
    }
  }

  /** The children of a recorded object are recorded, and none is the root. */
  lemma ChildKeys(t: Node, m: map<string, Addr>, p: string)
    requires Inv(t, m) && Indexed(t, m) && m[""] == [] && p in m
    ensures forall i | 0 <= i < |ChildPaths(At(t, m[p]))| ::
      ChildPaths(At(t, m[p]))[i] in m && ChildPaths(At(t, m[p]))[i] != ""
  {
    var a := m[p];
    forall i | 0 <= i < |ChildPaths(At(t, a))| ensures ChildPaths(At(t, a))[i] in m && ChildPaths(At(t, a))[i] != "" {
      AtChild(t, a, i);
    }
  }

  // ---------------------------------------------------------------------
  // pushing into an object (app.js:159-162 and 176-181)

  /** The child at index `i` of the object at `a` is at `a + [i]`. */
  lemma {:induction false} AtChild(t: Node, a: Addr, i: nat)
    requires ValidAddr(t, a) && At(t, a).Dir? && i < |At(t, a).children|
    ensures ValidAddr(t, a + [i]) && At(t, a + [i]) == At(t, a).children[i]
    decreases a
  {
    if a == [] {
      assert [i][1..] == [];
    } else {
      AtChild(t.children[a[0]], a[1..], i);
      assert (a + [i])[1..] == a[1..] + [i];
    }
  }

  /** Attaching grows the parent by exactly the size and the child given. */
  lemma {:induction false} AttachParent(t: Node, a: Addr, c: Node, extra: nat)
    requires ValidAddr(t, a) && At(t, a).Dir?
    ensures ValidAddr(AttachAt(t, a, c, extra), a)
    ensures At(AttachAt(t, a, c, extra), a)
      == At(t, a).(size := At(t, a).size + extra, children := At(t, a).children + [c])
    decreases a
  {
    if a != [] {
      AttachParent(t.children[a[0]], a[1..], c, extra);
    }
  }

  /** Attaching adds the child's path to its parent's children paths and
      changes no other object's. */
  lemma {:induction false} AttachChildPaths(t: Node, a: Addr, c: Node, extra: nat, b: Addr)
    requires ValidAddr(t, a) && At(t, a).Dir? && ValidAddr(t, b)
    ensures ValidAddr(AttachAt(t, a, c, extra), b)
    ensures ChildPaths(At(AttachAt(t, a, c, extra), b))
      == ChildPaths(At(t, b)) + (if b == a then [c.path] else [])
    decreases b
  {
    var r := AttachAt(t, a, c, extra);
    AttachKeeps(t, a, c, extra, b);
    if b == [] {
      if a == [] {
        assert ChildPaths(r) == ChildPaths(t) + [c.path];
      } else {
        assert r.children == t.children[a[0] := AttachAt(t.children[a[0]], a[1..], c, extra)];
        assert ChildPaths(r) == ChildPaths(t);
      }
    } else if a != [] && a[0] == b[0] {
      AttachChildPaths(t.children[a[0]], a[1..], c, extra, b[1..]);
      assert (b == a) == (b[1..] == a[1..]);
    } else {
      assert r.children[b[0]] == t.children[b[0]];
      assert b != a;
    }
  }

  /** The addresses after attaching a childless object are the old ones
      and the new child's. */
  lemma {:induction false} AttachAddrs(t: Node, a: Addr, c: Node, extra: nat, b: Addr)
    requires ValidAddr(t, a) && At(t, a).Dir? && Leaf(c)
    ensures ValidAddr(AttachAt(t, a, c, extra), b) ==> ValidAddr(t, b) || b == a + [|At(t, a).children|]
    decreases b
  {
    var r := AttachAt(t, a, c, extra);
    if b != [] && ValidAddr(r, b) {
      if a == [] {
        if b[0] < |t.children| {
          assert r.children[b[0]] == t.children[b[0]];
        } else {
          assert r.children[b[0]] == c;
          assert ValidAddr(c, b[1..]);
          assert b[1..] == [];
          assert b == [b[0]];
        }
      } else if a[0] == b[0] {
        AttachAddrs(t.children[a[0]], a[1..], c, extra, b[1..]);
        if !ValidAddr(t, b) {
          assert b == [b[0]] + b[1..];
          assert a == [a[0]] + a[1..];
        }
      } else {
        assert r.children[b[0]] == t.children[b[0]];
      }
    }
  }

  /** Pushing a child into the object at `pa` and recording it in `nodeMap`
      under its path keeps the invariant and every other object. */
  lemma AttachInv(t: Node, m: map<string, Addr>, pa: Addr, c: Node, extra: nat)
    requires Inv(t, m) && ValidAddr(t, pa) && At(t, pa).Dir?
    requires ChildOf(At(t, pa).path, c) && Coherent(c)
    ensures Inv(AttachAt(t, pa, c, extra), m[c.path := pa + [|At(t, pa).children|]])
    ensures forall p | p in m ::
      ValidAddr(AttachAt(t, pa, c, extra), m[p]) && SameHead(At(t, m[p]), At(AttachAt(t, pa, c, extra), m[p]))
    ensures ValidAddr(AttachAt(t, pa, c, extra), pa + [|At(t, pa).children|])
    ensures At(AttachAt(t, pa, c, extra), pa + [|At(t, pa).children|]) == c
  {
    AttachNew(t, pa, c, extra);
    AttachCoherent(t, pa, c, extra);
    forall p | p in m
      ensures ValidAddr(AttachAt(t, pa, c, extra), m[p])
      ensures SameHead(At(t, m[p]), At(AttachAt(t, pa, c, extra), m[p]))
    {
      AttachKeeps(t, pa, c, extra, m[p]);
    }
  }

  /** The file list and the file total grow by those of the attached child. */
  lemma AttachTotals(t: Node, pa: Addr, c: Node, extra: nat)
    requires ValidAddr(t, pa) && At(t, pa).Dir?
    ensures multiset(Files(AttachAt(t, pa, c, extra))) == multiset(Files(t)) + multiset(Files(c))
    ensures FileTotal(AttachAt(t, pa, c, extra)) == FileTotal(t) + FileTotal(c)
  {
    var x, y := AttachFiles(t, pa, c, extra);
    SumsAppend(x, y);
    SumsAppend(x, Files(c));
    SumsAppend(x + Files(c), y);
  }

  /** `parent.children.push(node); nodeMap[node.path] = node` (app.js:176-181
      and 159-162), with `extra` added to the parent's size first
      (app.js:176-178). The child goes last among the parent's children,
      `nodeMap` records it there, and no other object changes. */
  function Push(t: Node, m: map<string, Addr>, pa: Addr, c: Node, extra: nat)
    : (r: (Node, map<string, Addr>))
    requires Inv(t, m) && ValidAddr(t, pa) && At(t, pa).Dir?
    requires ChildOf(At(t, pa).path, c) && Coherent(c)
    ensures Inv(r.0, r.1) && SameHead(t, r.0)
    ensures ValidAddr(r.0, pa)
    ensures At(r.0, pa) == At(t, pa).(size := At(t, pa).size + extra, children := At(t, pa).children + [c])
    ensures r.1.Keys == m.Keys + {c.path}
    ensures r.1[c.path] == pa + [|At(t, pa).children|] && At(r.0, r.1[c.path]) == c
    ensures forall p | p in m && p != c.path :: r.1[p] == m[p] && SameHead(At(t, m[p]), At(r.0, r.1[p]))
    ensures PushedTo(t, m, pa, c, extra, r.0, r.1)
  {
    AttachInv(t, m, pa, c, extra);
    AttachParent(t, pa, c, extra);
    (AttachAt(t, pa, c, extra), m[c.path := pa + [|At(t, pa).children|]])
  }

  /** The state `(t', m')` is `(t, m)` with `c` pushed last under the
      directory at `pa`, whose size grew by `extra` (what `Push` ensures). */
  ghost predicate PushedTo(t: Node, m: map<string, Addr>, pa: Addr, c: Node, extra: nat, t': Node, m': map<string, Addr>)
    requires Inv(t, m) && ValidAddr(t, pa) && At(t, pa).Dir?
  {
    && Inv(t', m') && SameHead(t, t')
    && ValidAddr(t', pa)
    && At(t', pa) == At(t, pa).(size := At(t, pa).size + extra, children := At(t, pa).children + [c])
    && m'.Keys == m.Keys + {c.path}
    && m'[c.path] == pa + [|At(t, pa).children|] && At(t', m'[c.path]) == c
    && (forall p | p in m && p != c.path :: m'[p] == m[p] && SameHead(At(t, m[p]), At(t', m'[p])))
  }

  /** Pushing a childless object under a new path keeps `nodeMap`
      recording every object. */
  lemma PushIndexed(t: Node, m: map<string, Addr>, pa: Addr, c: Node, extra: nat)
    requires Inv(t, m) && ValidAddr(t, pa) && At(t, pa).Dir?
    requires ChildOf(At(t, pa).path, c) && Coherent(c) && Leaf(c) && c.path !in m
    ensures Indexed(t, m) ==> Indexed(Push(t, m, pa, c, extra).0, Push(t, m, pa, c, extra).1)
  {
    var r := Push(t, m, pa, c, extra);
    if Indexed(t, m) {
      forall b | ValidAddr(r.0, b) ensures At(r.0, b).path in r.1 && r.1[At(r.0, b).path] == b {
        AttachAddrs(t, pa, c, extra, b);
        if ValidAddr(t, b) {
          AttachKeeps(t, pa, c, extra, b);
          assert At(t, b).path in m;
        }
      }
    }
  }

  /** Pushing a childless object under a new path grows the state. */
  lemma PushGrown(t: Node, m: map<string, Addr>, pa: Addr, c: Node, extra: nat)
    requires Inv(t, m) && ValidAddr(t, pa) && At(t, pa).Dir?
    requires ChildOf(At(t, pa).path, c) && Coherent(c) && Leaf(c) && c.path !in m
    ensures Grown(t, m, Push(t, m, pa, c, extra).0, Push(t, m, pa, c, extra).1)
  {
    var r := Push(t, m, pa, c, extra);
    forall p | p in m ensures Appended(ChildPaths(At(t, m[p])), ChildPaths(At(r.0, r.1[p])), m, r.1) {
      AttachChildPaths(t, pa, c, extra, m[p]);
      var ps := ChildPaths(At(t, m[p]));
      if m[p] == pa {
        assert (ps + [c.path])[..|ps|] == ps;
      } else {
        assert ps[..|ps|] == ps;
      }
    }
    assert ChildPaths(At(r.0, r.1[c.path])) == [];
  }

  // ---------------------------------------------------------------------
  // the parent loop (app.js:144-167)

  /** Attaching an empty directory not yet recorded, and recording it,
      extends the state. */
  lemma AttachEmptyDir(t: Node, m: map<string, Addr>, pa: Addr, c: Node)
    requires Inv(t, m) && ValidAddr(t, pa) && At(t, pa).Dir?
    requires ChildOf(At(t, pa).path, c) && c.Dir? && c.children == [] && c.path !in m
    ensures Inv(AttachAt(t, pa, c, 0), m[c.path := pa + [|At(t, pa).children|]])
    ensures Extends(t, m, AttachAt(t, pa, c, 0), m[c.path := pa + [|At(t, pa).children|]])
  {
    var t', m' := AttachAt(t, pa, c, 0), m[c.path := pa + [|At(t, pa).children|]];
    AttachInv(t, m, pa, c, 0);
    AttachEmptyDirFiles(t, pa, c);
    RecordNew(t, m, t', c.path, pa + [|At(t, pa).children|]);
  }

  /** Recording a directory under a new key keeps every old entry and adds
      only that directory. */
  lemma RecordNew(t: Node, m: map<string, Addr>, t': Node, path: string, a: Addr)
    requires path !in m && ValidAddr(t', a) && At(t', a).Dir?
    requires forall p | p in m :: ValidAddr(t, m[p]) && ValidAddr(t', m[p]) && SameHead(At(t, m[p]), At(t', m[p]))
    ensures forall p | p in m :: p in m[path := a] && m[path := a][p] == m[p]
    ensures forall p | p in m :: ValidAddr(t', m[path := a][p]) && SameHead(At(t, m[p]), At(t', m[path := a][p]))
    ensures forall p | p in m[path := a] && p !in m :: ValidAddr(t', m[path := a][p]) && At(t', m[path := a][p]).Dir?
  {
  }

  /** Attaching an empty directory changes neither the files nor whether
      the tree is free of bare directories. */
  lemma AttachEmptyDirFiles(t: Node, pa: Addr, c: Node)
    requires ValidAddr(t, pa) && At(t, pa).Dir? && c.Dir? && c.children == []
    ensures Files(AttachAt(t, pa, c, 0)) == Files(t)
    ensures Listed(AttachAt(t, pa, c, 0)) == Listed(t)
  {
    AttachListed(t, pa, c, 0);
    var x, y := AttachFiles(t, pa, c, 0);
    assert Files(c) == [];
    assert x + [] + y == x + y;
  }

  /** One iteration of the loop at app.js:148-163: unless `nodeMap` already
      holds `path`, an empty directory `name` is appended to the children
      of the object at `parentPath` and recorded under `path`. It fails when
      that object has no children array. */
  function EnsureDir(t: Node, m: map<string, Addr>, parentPath: string, path: string, name: string)
    : (r: Result<(Node, map<string, Addr>), BuildError>)
    requires Inv(t, m) && parentPath in m && '/' !in name
    requires path == ChildPath(parentPath, name)
    ensures path in m ==> r == Ok((t, m))
    ensures r.Err? <==> path !in m && !At(t, m[parentPath]).Dir?
    ensures r.Err? ==> r.error == NoChildList(parentPath)
    ensures path !in m && r.Ok? ==> r.value == Push(t, m, m[parentPath], Dir(name, path, 0, DirMode, []), 0)
    ensures r.Ok? ==> Inv(r.value.0, r.value.1) && Extends(t, m, r.value.0, r.value.1)
    ensures r.Ok? ==> r.value.1.Keys == m.Keys + {path} && Grown(t, m, r.value.0, r.value.1)
    ensures r.Ok? && Indexed(t, m) ==> Indexed(r.value.0, r.value.1)
  {
    if path in m then
      GrownRefl(t, m);
      Ok((t, m))
    else if !At(t, m[parentPath]).Dir? then
      Err(NoChildList(parentPath))
    else
      var c := Dir(name, path, 0, DirMode, []);
      AttachEmptyDir(t, m, m[parentPath], c);
      PushGrown(t, m, m[parentPath], c, 0);
      PushIndexed(t, m, m[parentPath], c, 0);
      Ok(Push(t, m, m[parentPath], c, 0))
  }

  /** The loop at app.js:148-164 from piece `j` on, `cur` being the path
      reached so far: it makes, top-down, each directory on the way that
      `nodeMap` lacks, and nothing else. It changes nothing when `nodeMap`
      already holds every path on the way, and cannot fail when the first
      piece is not empty, "" designates the root, the object at `cur` is a
      directory and no recorded file lies above the path of the pieces. */
  function EnsuredFrom(t: Node, m: map<string, Addr>, parts: seq<string>, j: nat, cur: string)
    : (r: Result<(Node, map<string, Addr>), BuildError>)
    requires Inv(t, m) && j <= |parts| && cur in m && cur == PathSoFar(parts, j)
    requires forall i | 0 <= i < |parts| :: '/' !in parts[i]
    ensures r.Ok? ==> Inv(r.value.0, r.value.1) && Extends(t, m, r.value.0, r.value.1)
    ensures r.Ok? ==> r.value.1.Keys == m.Keys + Steps(parts, j) && Grown(t, m, r.value.0, r.value.1)
    ensures r.Ok? && Indexed(t, m) ==> Indexed(r.value.0, r.value.1)
    ensures Steps(parts, j) <= m.Keys ==> r == Ok((t, m))
    ensures (|parts| >= 1 && parts[0] != "" && m[""] == [] && NoFileAbove(t, m, Join(parts, '/'))
             && At(t, m[cur]).Dir?) ==> r.Ok?
    decreases |parts| - j
  {
    if j == |parts| then
      EnsuredNone(t, m, parts);
      Ok((t, m))
    else
      var path := ChildPath(cur, parts[j]);
      var step := EnsureDir(t, m, cur, path, parts[j]);
      if step.Err? then
        StepsNext(parts, j);
        Err(step.error)
      else
        var t', m' := step.value.0, step.value.1;
        var r := EnsuredFrom(t', m', parts, j + 1, path);
        EnsuredStep(t, m, parts, j, cur, path, t', m', r);
        r
  }

  /** With no pieces left the loop ends where it is. */
  lemma EnsuredNone(t: Node, m: map<string, Addr>, parts: seq<string>)
    requires Inv(t, m)
    ensures Extends(t, m, t, m) && Grown(t, m, t, m) && Steps(parts, |parts|) == {}
  {
    GrownRefl(t, m);
  }

  /** One step of the parent loop followed by the rest of it: the facts
      `EnsuredFrom` states about the rest give those about the whole. */
  lemma EnsuredStep(t: Node, m: map<string, Addr>, parts: seq<string>, j: nat, cur: string, path: string,
                    t': Node, m': map<string, Addr>, r: Result<(Node, map<string, Addr>), BuildError>)
    requires Inv(t, m) && j < |parts| && cur in m && cur == PathSoFar(parts, j) && path == ChildPath(cur, parts[j])
    requires forall i | 0 <= i < |parts| :: '/' !in parts[i]
    requires EnsureDir(t, m, cur, path, parts[j]) == Ok((t', m'))
    requires r.Ok? ==> Inv(r.value.0, r.value.1) && Extends(t', m', r.value.0, r.value.1)
    requires r.Ok? ==> r.value.1.Keys == m'.Keys + Steps(parts, j + 1) && Grown(t', m', r.value.0, r.value.1)
    requires r.Ok? && Indexed(t', m') ==> Indexed(r.value.0, r.value.1)
    requires Steps(parts, j + 1) <= m'.Keys ==> r == Ok((t', m'))
    requires (|parts| >= 1 && parts[0] != "" && m'[""] == [] && NoFileAbove(t', m', Join(parts, '/'))
              && At(t', m'[path]).Dir?) ==> r.Ok?
    ensures r.Ok? ==> Inv(r.value.0, r.value.1) && Extends(t, m, r.value.0, r.value.1)
    ensures r.Ok? ==> r.value.1.Keys == m.Keys + Steps(parts, j) && Grown(t, m, r.value.0, r.value.1)
    ensures r.Ok? && Indexed(t, m) ==> Indexed(r.value.0, r.value.1)
    ensures Steps(parts, j) <= m.Keys ==> r == Ok((t, m))
    ensures (|parts| >= 1 && parts[0] != "" && m[""] == [] && NoFileAbove(t, m, Join(parts, '/'))) ==> r.Ok?
  {
    assert path == PathSoFar(parts, j + 1);
    StepsNext(parts, j);
    if r.Ok? {
      Regroup(m.Keys, m'.Keys, r.value.1.Keys, path, Steps(parts, j + 1), Steps(parts, j));
    }
    StepThen(t, m, t', m', r);
    if |parts| >= 1 && parts[0] != "" && m[""] == [] && NoFileAbove(t, m, Join(parts, '/')) {
      SafeStep(t, m, parts, j, t', m');
      if j + 1 == |parts| {
        assert Steps(parts, j + 1) == {};
      }
    }
  }

  lemma Regroup(a: set<string>, b: set<string>, c: set<string>, x: string, rest: set<string>, all: set<string>)
    requires b == a + {x} && c == b + rest && all == {x} + rest
    ensures c == a + all
  {
  }

  /** A successful step followed by a successful rest is a successful whole. */
  lemma StepThen(t: Node, m: map<string, Addr>, t': Node, m': map<string, Addr>,
                 r: Result<(Node, map<string, Addr>), BuildError>)
    requires Inv(t, m) && Inv(t', m') && Extends(t, m, t', m') && Grown(t, m, t', m')
    requires r.Ok? ==>
      Inv(r.value.0, r.value.1) && Extends(t', m', r.value.0, r.value.1) && Grown(t', m', r.value.0, r.value.1)
    ensures r.Ok? ==> Extends(t, m, r.value.0, r.value.1) && Grown(t, m, r.value.0, r.value.1)
  {
    if r.Ok? {
      ExtendsTrans(t, m, t', m', r.value.0, r.value.1);
      GrownTrans(t, m, t', m', r.value.0, r.value.1);
    }
  }

  /** After a step of the parent loop that cannot fail, the next one cannot
      either. */
  lemma SafeStep(t: Node, m: map<string, Addr>, parts: seq<string>, j: nat, t': Node, m': map<string, Addr>)
    requires Inv(t, m) && Inv(t', m') && Extends(t, m, t', m') && j < |parts|
    requires ChildPath(PathSoFar(parts, j), parts[j]) in m'
    requires ChildPath(PathSoFar(parts, j), parts[j]) !in m ==>
      At(t', m'[ChildPath(PathSoFar(parts, j), parts[j])]).Dir?
    ensures |parts| >= 1 && parts[0] != "" && m[""] == [] && NoFileAbove(t, m, Join(parts, '/')) ==>
      && m'[""] == [] && NoFileAbove(t', m', Join(parts, '/'))
      && (j + 1 < |parts| ==> At(t', m'[ChildPath(PathSoFar(parts, j), parts[j])]).Dir?)
  {
    if |parts| >= 1 && parts[0] != "" && m[""] == [] && NoFileAbove(t, m, Join(parts, '/')) {
      NoFileAboveKept(t, m, t', m', Join(parts, '/'));
      if j + 1 < |parts| {
        var path := ChildPath(PathSoFar(parts, j), parts[j]);
        PathSoFarJoin(parts, j + 1);
        JoinDirPrefix(parts, j + 1);
        if path in m {
          assert SameHead(At(t, m[path]), At(t', m'[path]));
        }
      }
    }
  }

  /** The loop at app.js:147-164 over the directory pieces `dirParts` of an
      entry's path, starting from the root. */
  method EnsureParents(t0: Node, m0: map<string, Addr>, dirParts: seq<string>)
    returns (r: Result<(Node, map<string, Addr>), BuildError>)
    requires Inv(t0, m0)
    requires forall i | 0 <= i < |dirParts| :: '/' !in dirParts[i]
    ensures r == EnsuredFrom(t0, m0, dirParts, 0, "")
  {
    var t: Node, m: map<string, Addr> := t0, m0;
    var currentPath := "";
    for j := 0 to |dirParts|
      invariant Inv(t, m) && currentPath in m && currentPath == PathSoFar(dirParts, j)
      invariant EnsuredFrom(t, m, dirParts, j, currentPath) == EnsuredFrom(t0, m0, dirParts, 0, "")
    {
      var parentPath := currentPath;
      currentPath := ChildPath(currentPath, dirParts[j]);
      if currentPath !in m {
        var parent := At(t, m[parentPath]);
        if !parent.Dir? {
          return Err(NoChildList(parentPath));
        }
        var newNode := Dir(dirParts[j], currentPath, 0, DirMode, []);
        var pushed := Push(t, m, m[parentPath], newNode, 0);
        t, m := pushed.0, pushed.1;
      }
    }
    r := Ok((t, m));
  }

  /** The first half of one iteration (app.js:140-167): the directory object
      the entry at `path` goes into. `nodeMap` already holds it, and then
      nothing changes, or the parent loop makes exactly the directories
      above `path`, all of them missing. */
  function LocateParent(t: Node, m: map<string, Addr>, path: string)
    : (r: Result<(Node, map<string, Addr>, Addr), BuildError>)
    requires Inv(t, m)
    ensures DirPath(path) in m ==>
      r == if At(t, m[DirPath(path)]).Dir? then Ok((t, m, m[DirPath(path)])) else Err(NoChildList(DirPath(path)))
    ensures r.Ok? ==> Inv(r.value.0, r.value.1) && Extends(t, m, r.value.0, r.value.1)
    ensures r.Ok? ==> Grown(t, m, r.value.0, r.value.1)
    ensures r.Ok? ==> r.value.1.Keys == m.Keys + (if DirPath(path) in m then {} else Dirs(path))
    ensures r.Ok? && Indexed(t, m) ==> Indexed(r.value.0, r.value.1)
    ensures r.Ok? ==> DirPath(path) in r.value.1 && r.value.1[DirPath(path)] == r.value.2
    ensures r.Ok? ==> ValidAddr(r.value.0, r.value.2) && At(r.value.0, r.value.2).Dir?
    ensures Split(path, '/')[0] != "" && m[""] == [] && NoFileAbove(t, m, path) ==> r.Ok?
    ensures '/' !in path && m[""] == [] ==> r == Ok((t, m, []))
    ensures r.Ok? ==> Located(t, m, path, r.value.0, r.value.1, r.value.2)
  {
    var dirPath := DirPath(path);
    PathShape(path);
    NoFileAboveDir(t, m, path);
    GrownRefl(t, m);
    var made := if dirPath in m then Ok((t, m)) else EnsuredFrom(t, m, DirParts(path), 0, "");
    MadeHasDirPath(t, m, path, made);
    if made.Err? then Err(made.error)
    else if dirPath !in made.value.1 then Err(MissingParent(dirPath))
    else if !At(made.value.0, made.value.1[dirPath]).Dir? then Err(NoChildList(dirPath))
    else Ok((made.value.0, made.value.1, made.value.1[dirPath]))
  }

  /** The parent loop, when it runs and succeeds on a path with a non-empty
      first segment, records the path's directory as a directory. */
  lemma MadeHasDirPath(t: Node, m: map<string, Addr>, path: string, made: Result<(Node, map<string, Addr>), BuildError>)
    requires Inv(t, m)
    requires DirPath(path) !in m ==> made == EnsuredFrom(t, m, DirParts(path), 0, "")
    ensures DirPath(path) !in m && made.Ok? && Split(path, '/')[0] != "" ==>
      DirPath(path) in made.value.1 && At(made.value.0, made.value.1[DirPath(path)]).Dir?
  {
    var d := DirParts(path);
    if DirPath(path) !in m && made.Ok? && Split(path, '/')[0] != "" {
      assert d != [];
      PathSoFarJoin(d, |d|);
      assert d[..|d|] == d;
      assert PathSoFar(d, |d|) in Steps(d, 0);
    }
  }

  // ---------------------------------------------------------------------
  // one entry (app.js:139-182)

  /** An entry the builder can insert without failing: its path has a
      non-empty first segment, "" still designates the root and no file
      already recorded lies above it. */
  predicate Insertable(t: Node, m: map<string, Addr>, e: Entry)
    requires Inv(t, m)
  {
    Split(e.path, '/')[0] != "" && m[""] == [] && NoFileAbove(t, m, e.path)
  }

  /** What the parent's size grows by when the entry is pushed: a blob's
      size (app.js:176-178). */
  function Extra(e: Entry): nat
  {
    if e.kind == Blob then e.size else 0
  }

  /** What one successful iteration does to the state (see `AddEntry`):
      the entry's node goes last among the children of the object at its
      directory path and is recorded under its path; `nodeMap` gains
      exactly that path and, when the directory path was missing, the
      directories above the entry; every other recorded object keeps its
      place and head; the tree gains exactly the entry's file. */
  ghost predicate Added(t0: Node, m0: map<string, Addr>, e: Entry, listTrees: bool, t: Node, m: map<string, Addr>)
    requires Inv(t0, m0)
  {
    && Inv(t, m) && SameHead(t0, t)
    && Placed(t0, m0, e, listTrees, t, m)
    && KeysAdded(t0, m0, e, t, m)
    && (e.path !in m0 && Split(e.path, '/')[0] != "" ==> Grown(t0, m0, t, m))
    && (e.path !in m0 && Split(e.path, '/')[0] != "" && Indexed(t0, m0) ==> Indexed(t, m))
    && FilesAdded(t0, m0, e, listTrees, t, m)
  }

  /** The entry's node is the last child of the object at its directory
      path, recorded under its path; when that object was already
      recorded it is the same object, its children grown by the node. */
  ghost predicate Placed(t0: Node, m0: map<string, Addr>, e: Entry, listTrees: bool, t: Node, m: map<string, Addr>)
    requires Inv(t0, m0) && Inv(t, m)
  {
    e.path != "" ==>
      && DirPath(e.path) in m && e.path in m
      && At(t, m[DirPath(e.path)]).Dir? && |At(t, m[DirPath(e.path)]).children| >= 1
      && m[e.path] == m[DirPath(e.path)] + [|At(t, m[DirPath(e.path)]).children| - 1]
      && At(t, m[e.path]) == NodeFor(e, LastSegment(e.path), listTrees)
      && (DirPath(e.path) in m0 ==>
            && m[DirPath(e.path)] == m0[DirPath(e.path)] && At(t0, m0[DirPath(e.path)]).Dir?
            && At(t, m[DirPath(e.path)]).children
               == At(t0, m0[DirPath(e.path)]).children + [NodeFor(e, LastSegment(e.path), listTrees)])
  }

  /** `nodeMap` gains the entry's path and, if its directory path was
      missing, the directories above it, all new objects being
      directories; every other recorded object keeps its place and head. */
  ghost predicate KeysAdded(t0: Node, m0: map<string, Addr>, e: Entry, t: Node, m: map<string, Addr>)
    requires Inv(t0, m0) && Inv(t, m)
  {
    && m.Keys == m0.Keys + {e.path} + (if DirPath(e.path) in m0 then {} else Dirs(e.path))
    && (forall p | p in m0 && p != e.path :: m[p] == m0[p] && SameHead(At(t0, m0[p]), At(t, m[p])))
    && (forall p | p in m && p !in m0 && p != e.path :: At(t, m[p]).Dir?)
  }

  /** The tree gains exactly the entry's file, if it is not a directory;
      the recorded objects that are not directories are the old ones and
      the entry's node. */
  ghost predicate FilesAdded(t0: Node, m0: map<string, Addr>, e: Entry, listTrees: bool, t: Node, m: map<string, Addr>)
    requires Inv(t0, m0) && Inv(t, m)
  {
    && multiset(Files(t)) == multiset(Files(t0)) + multiset(if e.kind != TreeKind then [EntryFile(e)] else [])
    && FileTotal(t) == FileTotal(t0) + (if e.kind != TreeKind then e.size else 0)
    && Listed(t) == (Listed(t0) && (listTrees || e.kind != TreeKind))
    && (forall p | p in m && !At(t, m[p]).Dir? ::
          (p == e.path && !(e.kind == TreeKind && listTrees)) || (p in m0 && !At(t0, m0[p]).Dir?))
  }

  /** The exception an iteration raises when the parent lookup fails with
      `err`. Without a parent object, a blob's size is added to it
      (app.js:176-178) before any entry is pushed into it (app.js:180). */
  function Raised(e: Entry, err: BuildError): (r: BuildError)
    ensures err.MissingParent? && e.kind == Blob ==> r == MissingBlobParent(err.dirPath)
    ensures !(err.MissingParent? && e.kind == Blob) ==> r == err
  {
    if err.MissingParent? && e.kind == Blob then MissingBlobParent(err.dirPath) else err
  }

  /** One iteration of the loop at app.js:139-182: makes sure the parent
      directory exists, then pushes the entry's node into it and records it
      under the entry's path (replacing what was recorded there). What it
      does to the state is `AddEntryAdded`. */
  function AddEntry(t: Node, m: map<string, Addr>, e: Entry, listTrees: bool)
    : (r: Result<(Node, map<string, Addr>), BuildError>)
    requires Inv(t, m)
    ensures r.Ok? ==> Inv(r.value.0, r.value.1)
  {
    match LocateParent(t, m, e.path)
    case Err(err) => Err(Raised(e, err))
    case Ok((t1, m1, pa)) =>
      PathShape(e.path);
      Ok(Push(t1, m1, pa, NodeFor(e, LastSegment(e.path), listTrees), Extra(e)))
  }

  /** One iteration adds the entry as `Added` says. When the entry's
      directory is already recorded it is exactly the push of the entry's
      node into it; it cannot fail on an insertable entry; a top-level
      entry goes last among the root's children. */
  lemma AddEntryAdded(t: Node, m: map<string, Addr>, e: Entry, listTrees: bool)
    requires Inv(t, m)
    ensures AddEntry(t, m, e, listTrees).Ok? ==>
      Added(t, m, e, listTrees, AddEntry(t, m, e, listTrees).value.0, AddEntry(t, m, e, listTrees).value.1)
    ensures DirPath(e.path) in m && At(t, m[DirPath(e.path)]).Dir? ==>
      PushesInto(t, m, e, listTrees)
      && AddEntry(t, m, e, listTrees) == Ok(Push(t, m, m[DirPath(e.path)], NodeFor(e, LastSegment(e.path), listTrees), Extra(e)))
    ensures Insertable(t, m, e) ==> AddEntry(t, m, e, listTrees).Ok?
    ensures e.path != "" && '/' !in e.path && m[""] == [] ==>
      AddEntry(t, m, e, listTrees).Ok? && AddEntry(t, m, e, listTrees).value.0.children == t.children + [NodeFor(e, e.path, listTrees)]
  {
    PathShape(e.path);
    var loc := LocateParent(t, m, e.path);
    if loc.Ok? {
      var (t1, m1, pa) := loc.value;
      var node := NodeFor(e, LastSegment(e.path), listTrees);
      var (t', m') := Push(t1, m1, pa, node, Extra(e));
      PushAdded(t, m, e, listTrees, t1, m1, pa, t', m');
      assert AddEntry(t, m, e, listTrees) == Ok((t', m'));
      if e.path != "" && '/' !in e.path && m[""] == [] {
        assert pa == [] && t1 == t;
      }
    }
  }

  /** The entry's node is a well-formed child of the recorded directory at
      its directory path. */
  predicate PushesInto(t: Node, m: map<string, Addr>, e: Entry, listTrees: bool)
    requires Inv(t, m)
  {
    && DirPath(e.path) in m && At(t, m[DirPath(e.path)]).Dir?
    && ChildOf(At(t, m[DirPath(e.path)]).path, NodeFor(e, LastSegment(e.path), listTrees))
    && Coherent(NodeFor(e, LastSegment(e.path), listTrees))
  }

  /** What `LocateParent` gives: the state with the directories above
      `path` made, and the address of the object at its directory path. */
  ghost predicate Located(t0: Node, m0: map<string, Addr>, path: string, t: Node, m: map<string, Addr>, pa: Addr)
    requires Inv(t0, m0)
  {
    && Inv(t, m) && Extends(t0, m0, t, m) && Grown(t0, m0, t, m)
    && m.Keys == m0.Keys + (if DirPath(path) in m0 then {} else Dirs(path))
    && (Indexed(t0, m0) ==> Indexed(t, m))
    && DirPath(path) in m && m[DirPath(path)] == pa && ValidAddr(t, pa) && At(t, pa).Dir?
    && (DirPath(path) in m0 ==> t == t0 && m == m0 && pa == m0[DirPath(path)])
  }

  /** Pushing an entry's node into the directory `LocateParent` found is
      one iteration. */
  lemma PushAdded(t0: Node, m0: map<string, Addr>, e: Entry, listTrees: bool, t: Node, m: map<string, Addr>, pa: Addr,
                  t': Node, m': map<string, Addr>)
    requires Inv(t0, m0) && Located(t0, m0, e.path, t, m, pa)
    requires ChildOf(At(t, pa).path, NodeFor(e, LastSegment(e.path), listTrees))
    requires (t', m') == Push(t, m, pa, NodeFor(e, LastSegment(e.path), listTrees), Extra(e))
    ensures Added(t0, m0, e, listTrees, t', m')
  {
    var node := NodeFor(e, LastSegment(e.path), listTrees);
    PushPlaced(t0, m0, e, listTrees, t, m, pa, t', m');
    PushKeys(t0, m0, e, listTrees, t, m, pa, t', m');
    PushFiles(t0, m0, e, listTrees, t, m, pa, t', m');
    if e.path !in m0 && Split(e.path, '/')[0] != "" {
      NotOwnDir(e.path);
      PushGrown(t, m, pa, node, Extra(e));
      GrownTrans(t0, m0, t, m, t', m');
      PushIndexed(t, m, pa, node, Extra(e));
    }
  }

  lemma PushPlaced(t0: Node, m0: map<string, Addr>, e: Entry, listTrees: bool, t: Node, m: map<string, Addr>, pa: Addr,
                   t': Node, m': map<string, Addr>)
    requires Inv(t0, m0) && Located(t0, m0, e.path, t, m, pa)
    requires ChildOf(At(t, pa).path, NodeFor(e, LastSegment(e.path), listTrees))
    requires PushedTo(t, m, pa, NodeFor(e, LastSegment(e.path), listTrees), Extra(e), t', m')
    ensures Inv(t', m') && Placed(t0, m0, e, listTrees, t', m')
  {
    if e.path != "" {
      var node := NodeFor(e, LastSegment(e.path), listTrees);
      var d := DirPath(e.path);
      PathShape(e.path);
      assert |d| < |e.path|;
      assert m'[d] == pa;
      assert At(t', pa) == At(t, pa).(size := At(t, pa).size + Extra(e), children := At(t, pa).children + [node]);
      assert m'[e.path] == pa + [|At(t, pa).children|] && At(t', m'[e.path]) == node;
    }
  }

  lemma PushKeys(t0: Node, m0: map<string, Addr>, e: Entry, listTrees: bool, t: Node, m: map<string, Addr>, pa: Addr,
                 t': Node, m': map<string, Addr>)
    requires Inv(t0, m0) && Located(t0, m0, e.path, t, m, pa)
    requires ChildOf(At(t, pa).path, NodeFor(e, LastSegment(e.path), listTrees))
    requires PushedTo(t, m, pa, NodeFor(e, LastSegment(e.path), listTrees), Extra(e), t', m')
    ensures Inv(t', m') && SameHead(t0, t') && KeysAdded(t0, m0, e, t', m')
  {
    var c := NodeFor(e, LastSegment(e.path), listTrees);
    assert c.path == e.path && m'.Keys == m.Keys + {e.path};
    assert m'.Keys == m0.Keys + {e.path} + (if DirPath(e.path) in m0 then {} else Dirs(e.path));
    forall p | p in m0 && p != e.path
      ensures m'[p] == m0[p] && SameHead(At(t0, m0[p]), At(t', m'[p]))
    {
      assert p in m && m[p] == m0[p] && SameHead(At(t0, m0[p]), At(t, m[p]));
    }
    forall p | p in m' && p !in m0 && p != e.path
      ensures At(t', m'[p]).Dir?
    {
      assert p in m.Keys;
      assert At(t, m[p]).Dir? && SameHead(At(t, m[p]), At(t', m'[p]));
    }
  }

  lemma PushFiles(t0: Node, m0: map<string, Addr>, e: Entry, listTrees: bool, t: Node, m: map<string, Addr>, pa: Addr,
                  t': Node, m': map<string, Addr>)
    requires Inv(t0, m0) && Inv(t, m) && Extends(t0, m0, t, m) && ValidAddr(t, pa) && At(t, pa).Dir?
    requires PushedTo(t, m, pa, NodeFor(e, LastSegment(e.path), listTrees), Extra(e), t', m')
    requires t' == AttachAt(t, pa, NodeFor(e, LastSegment(e.path), listTrees), Extra(e))
    ensures Inv(t', m') && FilesAdded(t0, m0, e, listTrees, t', m')
  {
    var node := NodeFor(e, LastSegment(e.path), listTrees);
    assert Files(t) == Files(t0) && Listed(t) == Listed(t0);
    NodeForTotals(e, listTrees, node);
    AttachTotals(t, pa, node, Extra(e));
    assert multiset(Files(t')) == multiset(Files(t0)) + multiset(if e.kind != TreeKind then [EntryFile(e)] else []);
    assert FileTotal(t') == FileTotal(t0) + (if e.kind != TreeKind then e.size else 0);
    AttachListed(t, pa, node, Extra(e));
    NonDirsKept(t0, m0, t, m, t', m', e.path, node);
  }

  /** After a push onto an extension of `(t0, m0)`, every recorded object
      that is not a directory is the pushed one or an old one. */
  lemma NonDirsKept(t0: Node, m0: map<string, Addr>, t: Node, m: map<string, Addr>,
                    t': Node, m': map<string, Addr>, q: string, c: Node)
    requires Inv(t0, m0) && Inv(t, m) && Inv(t', m') && Extends(t0, m0, t, m)
    requires m'.Keys == m.Keys + {q} && q in m' && At(t', m'[q]) == c
    requires forall p | p in m && p != q :: m'[p] == m[p] && SameHead(At(t, m[p]), At(t', m'[p]))
    ensures forall p | p in m' && !At(t', m'[p]).Dir? :: (p == q && !c.Dir?) || (p in m0 && !At(t0, m0[p]).Dir?)
  {
    forall p | p in m' && !At(t', m'[p]).Dir?
      ensures (p == q && !c.Dir?) || (p in m0 && !At(t0, m0[p]).Dir?)
    {
      if p != q {
        assert p in m && !At(t, m[p]).Dir?;
      }
    }
  }

  /** The files an entry's node holds: the entry's file unless it is a
      directory entry. */
  lemma NodeForTotals(e: Entry, listTrees: bool, node: Node)
    requires node == NodeFor(e, LastSegment(e.path), listTrees)
    ensures multiset(Files(node)) == multiset(if e.kind != TreeKind then [EntryFile(e)] else [])
    ensures FileTotal(node) == (if e.kind != TreeKind then e.size else 0)
    ensures Listed(node) == (listTrees || e.kind != TreeKind)
  {
    if e.kind != TreeKind {
      assert node == EntryFile(e);
      assert [node][..0] == [];
      assert Files(node) == [node];
      assert SumSizes([node]) == node.size;
    }
  }

  /** A path is not one of its own directories. */
  lemma NotOwnDir(path: string)
    requires Split(path, '/')[0] != ""
    ensures path !in Dirs(path)
  {
    forall p | p in Dirs(path) ensures p != path {
      DirsAbove(path, p);
    }
  }

  // ---------------------------------------------------------------------
  // the loop over the listing (app.js:139-182)

  /** The nodes the entries of a flat listing are pushed as, before sizing. */
  function Pushed(es: seq<Entry>, listTrees: bool): (ns: seq<Node>)
    ensures |ns| == |es| && forall i | 0 <= i < |es| :: ns[i] == NodeFor(es[i], es[i].path, listTrees)
  {
    if es == [] then [] else Pushed(es[..|es| - 1], listTrees) + [NodeFor(es[|es| - 1], es[|es| - 1].path, listTrees)]
  }

  /** The name `buildTree` gives the root: the second segment of
      "owner/name". */
  function RootName(repoPath: string): string
    requires '/' in repoPath
  {
    Split(repoPath, '/')[1]
  }

  /** The listing has no entry of type 'tree'. */
  predicate NoTreeEntries(es: seq<Entry>)
  {
    forall i | 0 <= i < |es| :: es[i].kind != TreeKind
  }

  /** How the measures of a listing prefix grow by one entry. */
  lemma PrefixSnoc(es: seq<Entry>, k: nat, listTrees: bool)
    requires k < |es|
    ensures NoTreeEntries(es[..k + 1]) == (NoTreeEntries(es[..k]) && es[k].kind != TreeKind)
    ensures EntryFiles(es[..k + 1]) == EntryFiles(es[..k]) + (if es[k].kind != TreeKind then [EntryFile(es[k])] else [])
    ensures EntryTotal(es[..k + 1]) == EntryTotal(es[..k]) + (if es[k].kind != TreeKind then es[k].size else 0)
    ensures Pushed(es[..k + 1], listTrees) == Pushed(es[..k], listTrees) + [NodeFor(es[k], es[k].path, listTrees)]
  {
    assert es[..k + 1][..k] == es[..k];
    assert es[..k + 1][k] == es[k];
    assert forall i | 0 <= i < k :: es[..k + 1][i] == es[..k][i];
  }

  /** The state after the first `k` entries: the invariant, the root's
      head, the files and total so far, whether a bare directory was made,
      the root still under "", the non-directory objects in `nodeMap`
      coming from non-directory entries, for a flat listing the root's
      children, and for a GitHub listing the shape `Shaped` gives. */
  ghost predicate Built(es: seq<Entry>, k: nat, listTrees: bool, name: string, t: Node, m: map<string, Addr>)
    requires k <= |es|
  {
    && Inv(t, m)
    && t.name == name && t.mode == DirMode
    && multiset(Files(t)) == multiset(EntryFiles(es[..k]))
    && FileTotal(t) == EntryTotal(es[..k])
    && Listed(t) == (listTrees || NoTreeEntries(es[..k]))
    && (FlatListing(es) || WellFormedListing(es) ==> m[""] == [])
    && (listTrees ==> forall p | p in m && !At(t, m[p]).Dir? :: p in BlobPaths(es))
    && (FlatListing(es) ==> t.children == Pushed(es[..k], listTrees))
    && (GitHubListing(es) ==> Shaped(es, k, t, m))
  }

  /** After the first `k` entries of a GitHub listing, `nodeMap` records
      every object, its keys are the root's and exactly the paths those
      entries name, the files are exactly the objects at the paths of the
      listing's file entries, and every object's children come in the
      order the listing first names them. */
  ghost predicate Shaped(es: seq<Entry>, k: nat, t: Node, m: map<string, Addr>)
    requires k <= |es| && Inv(t, m)
  {
    && Indexed(t, m)
    && m.Keys == {""} + Named(es, k)
    && (forall p | p in m :: At(t, m[p]).File? <==> p in BlobPaths(es))
    && (forall p | p in m :: InListingOrder(es, ChildPaths(At(t, m[p]))))
  }

  /** The state after the first `k` iterations of the loop at
      app.js:139-182, or the error that stopped it. */
  function Inserted(es: seq<Entry>, k: nat, name: string, listTrees: bool)
    : (r: Result<(Node, map<string, Addr>), BuildError>)
    requires k <= |es|
    ensures r.Ok? ==> Inv(r.value.0, r.value.1)
  {
    if k == 0 then
      Ok((Dir(name, "", 0, DirMode, []), map["" := []]))
    else
      match Inserted(es, k - 1, name, listTrees)
      case Err(err) => Err(err)
      case Ok((t, m)) => AddEntry(t, m, es[k - 1], listTrees)
  }

  /** After any number of iterations the state is `Built`; the loop does
      not stop on a GitHub listing with trees listed, nor on a flat
      listing. */
  lemma {:induction false} InsertedBuilt(es: seq<Entry>, k: nat, name: string, listTrees: bool)
    requires k <= |es|
    ensures Inserted(es, k, name, listTrees).Ok? ==>
      Built(es, k, listTrees, name, Inserted(es, k, name, listTrees).value.0, Inserted(es, k, name, listTrees).value.1)
    ensures (listTrees && WellFormedListing(es)) || FlatListing(es) ==> Inserted(es, k, name, listTrees).Ok?
    decreases k, 1
  {
    if k == 0 {
      InitialBuilt(es, listTrees, name);
    } else {
      InsertedBuiltStep(es, k, name, listTrees);
    }
  }

  lemma InsertedBuiltStep(es: seq<Entry>, k: nat, name: string, listTrees: bool)
    requires 0 < k <= |es|
    ensures Inserted(es, k, name, listTrees).Ok? ==>
      Built(es, k, listTrees, name, Inserted(es, k, name, listTrees).value.0, Inserted(es, k, name, listTrees).value.1)
    ensures (listTrees && WellFormedListing(es)) || FlatListing(es) ==> Inserted(es, k, name, listTrees).Ok?
    decreases k, 0
  {
    var prev := Inserted(es, k - 1, name, listTrees);
    var r := Inserted(es, k, name, listTrees);
    if prev.Ok? {
      var (t, m) := prev.value;
      InsertedNext(es, k - 1, k, name, listTrees, t, m);
      InsertedBuilt(es, k - 1, name, listTrees);
      InsertedStep(es, k, listTrees, name, t, m, AddEntry(t, m, es[k - 1], listTrees));
      assert r == AddEntry(t, m, es[k - 1], listTrees);
    } else {
      assert r == Err(prev.error);
      InsertedBuilt(es, k - 1, name, listTrees);
    }
  }

  /** Iteration `k` adds the `k`-th entry to the state the earlier ones left. */
  lemma InsertedNext(es: seq<Entry>, k: nat, j: nat, name: string, listTrees: bool, t: Node, m: map<string, Addr>)
    requires j == k + 1 <= |es| && Inserted(es, k, name, listTrees) == Ok((t, m))
    ensures Inserted(es, j, name, listTrees) == AddEntry(t, m, es[k], listTrees)
  {
  }

  /** The state before the loop (app.js:129-137). */
  lemma InitialBuilt(es: seq<Entry>, listTrees: bool, name: string)
    ensures Inserted(es, 0, name, listTrees) == Ok((Dir(name, "", 0, DirMode, []), map["" := []]))
    ensures Built(es, 0, listTrees, name, Inserted(es, 0, name, listTrees).value.0, Inserted(es, 0, name, listTrees).value.1)
  {
    var t: Node, m: map<string, Addr> := Dir(name, "", 0, DirMode, []), map["" := []];
    assert es[..0] == [];
    assert Files(t) == [];
    assert forall a | ValidAddr(t, a) :: a == [];
    if GitHubListing(es) {
      NoEmptyPath(es);
    }
  }

  /** What one iteration with outcome `r` does, as `AddEntryAdded` states
      it. */
  lemma AddedOutcome(t: Node, m: map<string, Addr>, e: Entry, listTrees: bool, r: Result<(Node, map<string, Addr>), BuildError>)
    requires Inv(t, m) && r == AddEntry(t, m, e, listTrees)
    ensures r.Ok? ==> Added(t, m, e, listTrees, r.value.0, r.value.1)
    ensures Insertable(t, m, e) ==> r.Ok?
    ensures e.path != "" && '/' !in e.path && m[""] == [] ==>
      r.Ok? && r.value.0.children == t.children + [NodeFor(e, e.path, listTrees)]
  {
    AddEntryAdded(t, m, e, listTrees);
  }

  /** One more iteration keeps `Built`, and cannot fail on a GitHub listing
      with trees listed or on a flat listing. */
  lemma InsertedStep(es: seq<Entry>, k: nat, listTrees: bool, name: string, t: Node, m: map<string, Addr>,
                      r: Result<(Node, map<string, Addr>), BuildError>)
    requires 0 < k <= |es| && Built(es, k - 1, listTrees, name, t, m)
    requires r == AddEntry(t, m, es[k - 1], listTrees)
    ensures r.Ok? ==> Built(es, k, listTrees, name, r.value.0, r.value.1)
    ensures (listTrees && WellFormedListing(es)) || FlatListing(es) ==> r.Ok?
  {
    var e := es[k - 1];
    AddedOutcome(t, m, e, listTrees, r);
    if listTrees && WellFormedListing(es) {
      BuiltInsertable(es, k - 1, name, t, m);
    }
    BuiltFlat(es, k - 1, listTrees, name, t, m);
    if r.Ok? {
      var t', m' := r.value.0, r.value.1;
      assert Added(t, m, e, listTrees, t', m');
      assert FlatListing(es) ==> t'.children == t.children + [NodeFor(e, e.path, listTrees)];
      var j := k - 1;
      BuiltStep(es, j, listTrees, name, t, m, t', m');
      assert j + 1 == k;
    }
  }

  lemma BuiltStep(es: seq<Entry>, k: nat, listTrees: bool, name: string,
                  t0: Node, m0: map<string, Addr>, t: Node, m: map<string, Addr>)
    requires k < |es| && Built(es, k, listTrees, name, t0, m0)
    requires Added(t0, m0, es[k], listTrees, t, m)
    requires FlatListing(es) ==> t.children == t0.children + [NodeFor(es[k], es[k].path, listTrees)]
    ensures Built(es, k + 1, listTrees, name, t, m)
  {
    AddedCounts(es, k, listTrees, multiset(Files(t0)), multiset(Files(t)), FileTotal(t0), FileTotal(t), Listed(t0), Listed(t));
    if FlatListing(es) || WellFormedListing(es) {
      SplitEmpty();
      assert "" in m0 && "" != es[k].path;
    }
    if FlatListing(es) {
      PrefixSnoc(es, k, listTrees);
    }
    if listTrees {
      BlobPathsStep(es, k, t0, m0, t, m);
    }
    if GitHubListing(es) {
      ShapedStep(es, k, listTrees, t0, m0, t, m);
    }
  }

  /** The files, the total and the absence of bare directories after one
      more entry: `f`, `n` and `l` for the tree after it, `f0`, `n0` and
      `l0` before. */
  lemma AddedCounts(es: seq<Entry>, k: nat, listTrees: bool, f0: multiset<Node>, f: multiset<Node>,
                    n0: nat, n: nat, l0: bool, l: bool)
    requires k < |es|
    requires f0 == multiset(EntryFiles(es[..k])) && n0 == EntryTotal(es[..k])
    requires l0 == (listTrees || NoTreeEntries(es[..k]))
    requires f == f0 + multiset(if es[k].kind != TreeKind then [EntryFile(es[k])] else [])
    requires n == n0 + (if es[k].kind != TreeKind then es[k].size else 0)
    requires l == (l0 && (listTrees || es[k].kind != TreeKind))
    ensures f == multiset(EntryFiles(es[..k + 1]))
    ensures n == EntryTotal(es[..k + 1])
    ensures l == (listTrees || NoTreeEntries(es[..k + 1]))
  {
    PrefixSnoc(es, k, listTrees);
  }

  lemma BlobPathsStep(es: seq<Entry>, k: nat, t0: Node, m0: map<string, Addr>, t: Node, m: map<string, Addr>)
    requires k < |es| && Inv(t0, m0)
    requires forall p | p in m0 && !At(t0, m0[p]).Dir? :: p in BlobPaths(es)
    requires Added(t0, m0, es[k], true, t, m)
    ensures forall p | p in m && !At(t, m[p]).Dir? :: p in BlobPaths(es)
  {
    if es[k].kind != TreeKind {
      assert es[k].path in BlobPaths(es);
    }
  }

  /** One more entry of a GitHub listing keeps the shape. */
  lemma ShapedStep(es: seq<Entry>, k: nat, listTrees: bool, t0: Node, m0: map<string, Addr>, t: Node, m: map<string, Addr>)
    requires k < |es| && GitHubListing(es) && Inv(t0, m0) && m0[""] == []
    requires Shaped(es, k, t0, m0) && Added(t0, m0, es[k], listTrees, t, m)
    ensures Shaped(es, k + 1, t, m)
  {
    OrderedFresh(es, k);
    SplitEmpty();
    assert es[k].path !in m0;
    ShapedKeys(es, k, m0, m);
    ShapedKinds(es, k, listTrees, t0, m0, t, m);
    ShapedOrder(es, k, listTrees, t0, m0, t, m);
  }

  /** After one more entry of a GitHub listing, the recorded files are
      exactly the listed blobs. */
  lemma ShapedKinds(es: seq<Entry>, k: nat, listTrees: bool, t0: Node, m0: map<string, Addr>, t: Node, m: map<string, Addr>)
    requires k < |es| && GitHubListing(es) && Inv(t0, m0) && m0[""] == []
    requires Shaped(es, k, t0, m0) && Added(t0, m0, es[k], listTrees, t, m)
    ensures forall p | p in m :: At(t, m[p]).File? <==> p in BlobPaths(es)
  {
    var e := es[k];
    OrderedFresh(es, k);
    SplitEmpty();
    assert e.path !in m0;
    forall p | p in m ensures At(t, m[p]).File? <==> p in BlobPaths(es) {
      if p == e.path {
        OrderedBlobPath(es, k);
      } else if p !in m0 {
        DirsAbove(e.path, p);
      } else {
        assert SameHead(At(t0, m0[p]), At(t, m[p]));
      }
    }
  }

  /** After one more entry of a GitHub listing, every object's children
      are still in listing order. */
  lemma ShapedOrder(es: seq<Entry>, k: nat, listTrees: bool, t0: Node, m0: map<string, Addr>, t: Node, m: map<string, Addr>)
    requires k < |es| && GitHubListing(es) && Inv(t0, m0) && m0[""] == []
    requires Shaped(es, k, t0, m0) && Added(t0, m0, es[k], listTrees, t, m)
    ensures forall p | p in m :: InListingOrder(es, ChildPaths(At(t, m[p])))
  {
    OrderedFresh(es, k);
    SplitEmpty();
    assert es[k].path !in m0;
    assert m[""] == [] && Grown(t0, m0, t, m);
    forall p | p in m ensures InListingOrder(es, ChildPaths(At(t, m[p]))) {
      if p in m0 {
        OrderKept(es, k, listTrees, t0, m0, t, m, p);
      } else {
        OrderNew(es, k, listTrees, t0, m0, t, m, p);
      }
    }
  }

  /** An object recorded before the entry keeps its children in listing
      order. */
  lemma OrderKept(es: seq<Entry>, k: nat, listTrees: bool, t0: Node, m0: map<string, Addr>, t: Node, m: map<string, Addr>,
                  p: string)
    requires k < |es| && GitHubListing(es) && Inv(t0, m0) && m0[""] == []
    requires Shaped(es, k, t0, m0) && Added(t0, m0, es[k], listTrees, t, m)
    requires es[k].path !in m0 && m[""] == [] && Indexed(t, m) && p in m0
    ensures InListingOrder(es, ChildPaths(At(t, m[p])))
  {
    ChildKeys(t, m, p);
    ChildKeys(t0, m0, p);
    InOrderAppend(es, k, ChildPaths(At(t0, m0[p])), ChildPaths(At(t, m[p])));
  }

  /** An object the entry made has its children in listing order. */
  lemma OrderNew(es: seq<Entry>, k: nat, listTrees: bool, t0: Node, m0: map<string, Addr>, t: Node, m: map<string, Addr>,
                 p: string)
    requires k < |es| && GitHubListing(es) && Inv(t0, m0) && m0[""] == []
    requires Shaped(es, k, t0, m0) && Added(t0, m0, es[k], listTrees, t, m)
    requires es[k].path !in m0 && m[""] == [] && Indexed(t, m) && p in m && p !in m0
    requires Grown(t0, m0, t, m)
    ensures InListingOrder(es, ChildPaths(At(t, m[p])))
  {
    ChildKeys(t, m, p);
    ShapedKeys(es, k, m0, m);
    var qs := ChildPaths(At(t, m[p]));
    assert Appended([], qs, m0, m);
    forall i | 0 <= i < |qs| ensures qs[i] in Named(es, k + 1) && qs[i] !in Named(es, k) {
      assert qs[i] in m && qs[i] != "" && qs[i] !in m0;
    }
    InOrderAppend(es, k, [], qs);
  }

  /** The keys after one more entry of a GitHub listing. */
  lemma ShapedKeys(es: seq<Entry>, k: nat, m0: map<string, Addr>, m: map<string, Addr>)
    requires k < |es| && GitHubListing(es)
    requires m0.Keys == {""} + Named(es, k)
    requires m.Keys == m0.Keys + {es[k].path} + (if DirPath(es[k].path) in m0 then {} else Dirs(es[k].path))
    ensures m.Keys == {""} + Named(es, k + 1)
  {
    var e := es[k];
    DirsOfDirPath(e.path);
    if DirPath(e.path) in m0 && DirParts(e.path) != [] {
      NamedClosed(es, k);
    }
  }

  lemma BuiltInsertable(es: seq<Entry>, k: nat, name: string, t: Node, m: map<string, Addr>)
    requires k < |es| && Built(es, k, true, name, t, m) && WellFormedListing(es)
    ensures Insertable(t, m, es[k])
  {
  }

  /** Before an entry of a flat listing, "" still designates the root and
      the entry is a top-level one. */
  lemma BuiltFlat(es: seq<Entry>, k: nat, listTrees: bool, name: string, t: Node, m: map<string, Addr>)
    requires k < |es| && Built(es, k, listTrees, name, t, m)
    ensures FlatListing(es) ==> es[k].path != "" && '/' !in es[k].path && m[""] == []
  {
  }

  /** Once an iteration fails the loop is over. */
  lemma InsertedStops(es: seq<Entry>, k: nat, n: nat, name: string, listTrees: bool)
    requires k <= n <= |es| && Inserted(es, k, name, listTrees).Err?
    ensures Inserted(es, n, name, listTrees) == Inserted(es, k, name, listTrees)
  {
    var j := k;
    while j < n
      invariant k <= j <= n && Inserted(es, j, name, listTrees) == Inserted(es, k, name, listTrees)
    {
      InsertedErr(es, k, j + 1, name, listTrees);
      j := j + 1;
    }
  }

  /** An iteration after a failed one changes nothing. */
  lemma InsertedErr(es: seq<Entry>, k: nat, n: nat, name: string, listTrees: bool)
    requires k < n <= |es| && Inserted(es, k, name, listTrees).Err?
    requires Inserted(es, n - 1, name, listTrees) == Inserted(es, k, name, listTrees)
    ensures Inserted(es, n, name, listTrees) == Inserted(es, k, name, listTrees)
  {
  }

  /** After the whole listing, the tree holds what the listing describes. */
  lemma BuiltAll(es: seq<Entry>, listTrees: bool, name: string, t: Node, m: map<string, Addr>)
    requires Built(es, |es|, listTrees, name, t, m)
    ensures Inv(t, m) && t.name == name && t.mode == DirMode
    ensures multiset(Files(t)) == multiset(EntryFiles(es))
    ensures FileTotal(t) == EntryTotal(es)
    ensures Listed(t) == (listTrees || NoTreeEntries(es))
    ensures FlatListing(es) ==> t.children == Pushed(es, listTrees)
  {
    assert es[..|es|] == es;
  }

  /** The parent lookup of app.js:142-166, when the parent loop ran and
      gave `made`. */
  lemma LocateParentMade(t: Node, m: map<string, Addr>, path: string, made: Result<(Node, map<string, Addr>), BuildError>)
    requires Inv(t, m)
    requires made == if DirPath(path) in m then Ok((t, m)) else EnsuredFrom(t, m, DirParts(path), 0, "")
    ensures made.Err? ==> LocateParent(t, m, path) == Err(made.error)
    ensures made.Ok? && DirPath(path) !in made.value.1 ==> LocateParent(t, m, path) == Err(MissingParent(DirPath(path)))
    ensures made.Ok? && DirPath(path) in made.value.1 && !At(made.value.0, made.value.1[DirPath(path)]).Dir? ==>
      LocateParent(t, m, path) == Err(NoChildList(DirPath(path)))
    ensures made.Ok? && DirPath(path) in made.value.1 && At(made.value.0, made.value.1[DirPath(path)]).Dir? ==>
      LocateParent(t, m, path) == Ok((made.value.0, made.value.1, made.value.1[DirPath(path)]))
  {
  }

  /** An iteration fails as the parent lookup does, and otherwise pushes the
      entry's node into the parent it found. */
  lemma AddEntryLocated(t: Node, m: map<string, Addr>, e: Entry, listTrees: bool)
    requires Inv(t, m)
    ensures LocateParent(t, m, e.path).Err? ==> AddEntry(t, m, e, listTrees) == Err(Raised(e, LocateParent(t, m, e.path).error))
    ensures LocateParent(t, m, e.path).Ok? ==>
      var (t1, m1, pa) := LocateParent(t, m, e.path).value;
      ChildOf(At(t1, pa).path, NodeFor(e, LastSegment(e.path), listTrees)) && Coherent(NodeFor(e, LastSegment(e.path), listTrees))
      && AddEntry(t, m, e, listTrees) == Ok(Push(t1, m1, pa, NodeFor(e, LastSegment(e.path), listTrees), Extra(e)))
  {
    PathShape(e.path);
  }

  /** The parent lookup of one iteration (app.js:140-167), written as the
      source does it: split the path, create the missing parents when
      `nodeMap` lacks the directory, then take `nodeMap[dirPath]`, which
      must be an object with a children array. */
  method FindParent(t: Node, m: map<string, Addr>, path: string)
    returns (r: Result<(Node, map<string, Addr>, Addr), BuildError>)
    requires Inv(t, m)
    ensures r == LocateParent(t, m, path)
  {
    var pathParts := Split(path, '/');
    var dirPath := Join(pathParts[..|pathParts| - 1], '/');
    var made: Result<(Node, map<string, Addr>), BuildError> := Ok((t, m));
    if dirPath !in m {
      made := EnsureParents(t, m, pathParts[..|pathParts| - 1]);
    }
    LocateParentMade(t, m, path, made);
    if made.Err? {
      return Err(made.error);
    }
    var (t1, m1) := made.value;
    if dirPath !in m1 {
      return Err(MissingParent(dirPath));
    }
    if !At(t1, m1[dirPath]).Dir? {
      return Err(NoChildList(dirPath));
    }
    r := Ok((t1, m1, m1[dirPath]));
  }

  /** One iteration of the loop at app.js:139-182, written as the source
      does it: find the parent, then push the entry's node into it and
      record it. Without a parent object, a blob's size is read from it
      before anything is pushed. */
  method InsertOne(t: Node, m: map<string, Addr>, e: Entry, listTrees: bool)
    returns (r: Result<(Node, map<string, Addr>), BuildError>)
    requires Inv(t, m)
    ensures r == AddEntry(t, m, e, listTrees)
  {
    var fileName := LastSegment(e.path);
    var loc := FindParent(t, m, e.path);
    if loc.Err? {
      AddEntryFailed(t, m, e, listTrees, loc.error);
      return Err(Raised(e, loc.error));
    }
    var (t1, m1, parent) := loc.value;
    AddEntryPushed(t, m, e, listTrees, t1, m1, parent);
    var node := NodeFor(e, fileName, listTrees);
    r := Ok(Push(t1, m1, parent, node, Extra(e)));
  }

  /** An iteration whose parent lookup fails raises `Raised`. */
  lemma AddEntryFailed(t: Node, m: map<string, Addr>, e: Entry, listTrees: bool, err: BuildError)
    requires Inv(t, m) && LocateParent(t, m, e.path) == Err(err)
    ensures AddEntry(t, m, e, listTrees) == Err(Raised(e, err))
  {
  }

  /** An iteration whose parent lookup finds `pa` pushes the entry's node
      there. */
  lemma AddEntryPushed(t: Node, m: map<string, Addr>, e: Entry, listTrees: bool, t1: Node, m1: map<string, Addr>, pa: Addr)
    requires Inv(t, m) && LocateParent(t, m, e.path) == Ok((t1, m1, pa))
    ensures Inv(t1, m1) && ValidAddr(t1, pa) && At(t1, pa).Dir?
    ensures ChildOf(At(t1, pa).path, NodeFor(e, LastSegment(e.path), listTrees))
    ensures Coherent(NodeFor(e, LastSegment(e.path), listTrees))
    ensures AddEntry(t, m, e, listTrees) == Ok(Push(t1, m1, pa, NodeFor(e, LastSegment(e.path), listTrees), Extra(e)))
  {
    AddEntryLocated(t, m, e, listTrees);
  }

  /** The loop at app.js:139-182 over the whole listing, the root made as at
      app.js:129-137; a failing iteration ends the build with its error. */
  method InsertAll(entries: seq<Entry>, repoPath: string, listTrees: bool)
    returns (r: Result<Node, BuildError>)
    requires '/' in repoPath
    ensures r.Ok? <==> Inserted(entries, |entries|, RootName(repoPath), listTrees).Ok?
    ensures r.Ok? ==> r.value == Inserted(entries, |entries|, RootName(repoPath), listTrees).value.0
    ensures r.Err? ==> r.error == Inserted(entries, |entries|, RootName(repoPath), listTrees).error
    ensures r.Ok? ==> r.value.Dir? && r.value.name == RootName(repoPath)
    ensures r.Ok? ==> r.value.path == "" && r.value.mode == DirMode && Coherent(r.value)
    ensures r.Ok? ==> multiset(Files(r.value)) == multiset(EntryFiles(entries))
    ensures r.Ok? ==> FileTotal(r.value) == EntryTotal(entries)
    ensures r.Ok? ==> Listed(r.value) == (listTrees || NoTreeEntries(entries))
    ensures listTrees && WellFormedListing(entries) ==> r.Ok?
    ensures FlatListing(entries) ==> r.Ok? && r.value.children == Pushed(entries, listTrees)
  {
    var name := RootName(repoPath);
    var t := Dir(name, "", 0, DirMode, []);
    var m: map<string, Addr> := map["" := []];
    for k := 0 to |entries|
      invariant Inv(t, m)
      invariant Inserted(entries, k, name, listTrees) == Ok((t, m))
    {
      var step := InsertOne(t, m, entries[k], listTrees);
      InsertedNext(entries, k, k + 1, name, listTrees, t, m);
      if step.Err? {
        InsertedStops(entries, k + 1, |entries|, name, listTrees);
        r := Err(step.error);
        InsertedAll(entries, name, listTrees, r);
        return;
      }
      t, m := step.value.0, step.value.1;
    }
    r := Ok(t);
    InsertedAll(entries, name, listTrees, r);
  }

  /** What the loop leaves: the root named after the repository, holding
      exactly the listing's files, and for a flat listing the entries'
      nodes in listing order; it does not fail on a GitHub listing with
      trees listed, nor on a flat listing. */
  lemma InsertedAll(entries: seq<Entry>, name: string, listTrees: bool, r: Result<Node, BuildError>)
    requires r.Ok? <==> Inserted(entries, |entries|, name, listTrees).Ok?
    requires r.Ok? ==> r.value == Inserted(entries, |entries|, name, listTrees).value.0
    ensures r.Ok? ==> r.value.Dir? && r.value.name == name
    ensures r.Ok? ==> r.value.path == "" && r.value.mode == DirMode && Coherent(r.value)
    ensures r.Ok? ==> multiset(Files(r.value)) == multiset(EntryFiles(entries))
    ensures r.Ok? ==> FileTotal(r.value) == EntryTotal(entries)
    ensures r.Ok? ==> Listed(r.value) == (listTrees || NoTreeEntries(entries))
    ensures listTrees && WellFormedListing(entries) ==> r.Ok?
    ensures FlatListing(entries) ==> r.Ok? && r.value.children == Pushed(entries, listTrees)
  {
    InsertedBuilt(entries, |entries|, name, listTrees);
    var s := Inserted(entries, |entries|, name, listTrees);
    if s.Ok? {
      BuiltAll(entries, listTrees, name, s.value.0, s.value.1);
    }
  }

  // ---------------------------------------------------------------------
  // the shape of the built tree

  /** No two objects of the tree share a path. */
  ghost predicate UniquePaths(t: Node)
  {
    forall a, b | ValidAddr(t, a) && ValidAddr(t, b) && At(t, a).path == At(t, b).path :: a == b
  }

  /** Some object of the tree has path `p`. */
  ghost predicate HasPath(t: Node, p: string)
  {
    exists a | ValidAddr(t, a) :: At(t, a).path == p
  }

  /** The paths of the objects of the tree are exactly `ps`. */
  ghost predicate PathsAre(t: Node, ps: set<string>)
  {
    && (forall a | ValidAddr(t, a) :: At(t, a).path in ps)
    && (forall p | p in ps :: HasPath(t, p))
  }

  /** The files of the tree are exactly its objects at the paths `blobs`. */
  ghost predicate FilesAt(t: Node, blobs: set<string>)
  {
    forall a | ValidAddr(t, a) :: At(t, a).File? <==> At(t, a).path in blobs
  }

  /** Every object's children come in the order the listing first names
      them. */
  ghost predicate ChildrenInOrder(es: seq<Entry>, t: Node)
  {
    forall a | ValidAddr(t, a) :: InListingOrder(es, ChildPaths(At(t, a)))
  }

  /** Every child sits under the object at its directory path. */
  ghost predicate UnderDirPath(t: Node)
  {
    forall a, i | ValidAddr(t, a) && 0 <= i < |ChildPaths(At(t, a))| :: DirPath(ChildPaths(At(t, a))[i]) == At(t, a).path
  }

  /** The tree a GitHub listing describes: one object per path the listing
      names (the entries' paths and the directories above them) and the
      root, files exactly at the file entries' paths, each object under
      its directory path, siblings in order of first mention. */
  ghost predicate ShapedTree(es: seq<Entry>, t: Node)
  {
    && UniquePaths(t)
    && PathsAre(t, {""} + Named(es, |es|))
    && FilesAt(t, BlobPaths(es))
    && UnderDirPath(t)
    && ChildrenInOrder(es, t)
  }

  /** The subtrees of a coherent tree are coherent. */
  lemma {:induction false} CoherentAt(t: Node, a: Addr)
    requires Coherent(t) && ValidAddr(t, a)
    ensures Coherent(At(t, a))
    decreases a
  {
    if a != [] {
      CoherentAt(t.children[a[0]], a[1..]);
    }
  }

  /** In a coherent tree every child sits under its directory path. */
  lemma CoherentUnder(t: Node)
    requires Coherent(t)
    ensures UnderDirPath(t)
  {
    forall a, i | ValidAddr(t, a) && 0 <= i < |ChildPaths(At(t, a))|
      ensures DirPath(ChildPaths(At(t, a))[i]) == At(t, a).path
    {
      CoherentAt(t, a);
      ChildDirPath(At(t, a).path, At(t, a).children[i]);
    }
  }

  /** The state after a whole GitHub listing gives the tree it describes. */
  lemma ShapedAll(es: seq<Entry>, t: Node, m: map<string, Addr>)
    requires Inv(t, m) && Shaped(es, |es|, t, m)
    ensures ShapedTree(es, t)
  {
    CoherentUnder(t);
    forall p | p in {""} + Named(es, |es|) ensures HasPath(t, p) {
      assert ValidAddr(t, m[p]) && At(t, m[p]).path == p;
    }
    forall a | ValidAddr(t, a) ensures InListingOrder(es, ChildPaths(At(t, a))) {
      assert m[At(t, a).path] == a;
    }
  }

  /** Trees that differ only in sizes have the same addresses, and the
      objects there differ only in sizes. */
  lemma {:induction false} SameButSizesAt(a: Node, b: Node, x: Addr)
    requires SameButSizes(a, b)
    ensures ValidAddr(a, x) <==> ValidAddr(b, x)
    ensures ValidAddr(a, x) ==> SameButSizes(At(a, x), At(b, x))
    decreases x
  {
    if x != [] && a.Dir? && x[0] < |a.children| {
      SameButSizesAt(a.children[x[0]], b.children[x[0]], x[1..]);
    }
  }

  /** Objects that differ only in sizes have the same path, kind and
      children's paths. */
  lemma SameButSizesHead(a: Node, b: Node)
    requires SameButSizes(a, b)
    ensures a.path == b.path && a.File? == b.File? && ChildPaths(a) == ChildPaths(b)
  {
    if a.Dir? {
      forall i | 0 <= i < |a.children| ensures a.children[i].path == b.children[i].path {
        assert SameButSizes(a.children[i], b.children[i]);
      }
    }
  }

  /** Sizing keeps the shape. */
  lemma ShapedSized(es: seq<Entry>, t: Node, r: Node)
    requires SameButSizes(t, r) && ShapedTree(es, t)
    ensures ShapedTree(es, r)
  {
    forall x | ValidAddr(r, x) ensures ValidAddr(t, x) && At(t, x).path == At(r, x).path
      && At(t, x).File? == At(r, x).File? && ChildPaths(At(t, x)) == ChildPaths(At(r, x))
    {
      SameButSizesAt(t, r, x);
      SameButSizesHead(At(t, x), At(r, x));
    }
    forall p | p in {""} + Named(es, |es|) ensures HasPath(r, p) {
      var x :| ValidAddr(t, x) && At(t, x).path == p;
      SameButSizesAt(t, r, x);
      SameButSizesHead(At(t, x), At(r, x));
    }
  }

  /** A tree sized from the same unsized tree is the same tree. */
  lemma {:induction false} SizedUnique(n: Node, a: Node, b: Node)
    requires SameButSizes(n, a) && Sized(a) && Listed(a)
    requires SameButSizes(n, b) && Sized(b) && Listed(b)
    ensures a == b
    decreases n
  {
    if n.Dir? {
      forall i | 0 <= i < |a.children| ensures a.children[i] == b.children[i] {
        SizedUnique(n.children[i], a.children[i], b.children[i]);
      }
      assert a.children == b.children;
    }
  }

  // ---------------------------------------------------------------------
  // buildTree (app.js:127-197)

  /** The tree and `nodeMap` after the loop over the whole listing. */
  function Assembled(entries: seq<Entry>, repoPath: string, listTrees: bool): Result<(Node, map<string, Addr>), BuildError>
    requires '/' in repoPath
  {
    Inserted(entries, |entries|, RootName(repoPath), listTrees)
  }

  /** `buildTree(flatTree, repoPath)` (app.js:127-197), as written when
      `listTrees` is false and corrected when it is true: the loop, then
      `calculateSize`. It succeeds exactly when the loop does and leaves no
      bare directory, and then gives the loop's tree with every directory's
      size the total of what it holds. The root is a directory named after
      the repository with the empty path; the files of the tree are exactly
      the listing's non-directory entries, each once; the tree is coherent;
      for a GitHub listing it is the tree the listing describes. */
  method Build(entries: seq<Entry>, repoPath: string, listTrees: bool) returns (r: Result<Node, BuildError>)
    requires '/' in repoPath
    ensures r.Ok? <==> Assembled(entries, repoPath, listTrees).Ok? && Listed(Assembled(entries, repoPath, listTrees).value.0)
    ensures r.Ok? ==> SameButSizes(Assembled(entries, repoPath, listTrees).value.0, r.value)
    ensures r.Err? ==> r.error == if Assembled(entries, repoPath, listTrees).Err?
                                  then Assembled(entries, repoPath, listTrees).error else BareDirSized
    ensures r.Ok? ==> r.value.Dir? && r.value.name == RootName(repoPath)
    ensures r.Ok? ==> r.value.path == "" && r.value.mode == DirMode
    ensures r.Ok? ==> Sized(r.value) && Listed(r.value) && Coherent(r.value)
    ensures r.Ok? ==> multiset(Files(r.value)) == multiset(EntryFiles(entries))
    ensures r.Ok? ==> r.value.size == EntryTotal(entries)
    ensures r.Ok? && GitHubListing(entries) ==> ShapedTree(entries, r.value)
    ensures !listTrees && !NoTreeEntries(entries) ==> r.Err?
    ensures listTrees && WellFormedListing(entries) ==> r.Ok?
    ensures FlatListing(entries) && (listTrees || NoTreeEntries(entries))
      ==> r == Ok(Dir(RootName(repoPath), "", EntryTotal(entries), DirMode, FlatNodes(entries)))
  {
    var t := InsertAll(entries, repoPath, listTrees);
    if t.Err? {
      r := Err(t.error);
      BuildOutcome(entries, repoPath, listTrees, t, r);
      return;
    }
    var sized := CalculateSize(t.value);
    if sized.None? {
      r := Err(BareDirSized);
      BuildOutcome(entries, repoPath, listTrees, t, r);
      return;
    }
    r := Ok(sized.value);
    BuildOutcome(entries, repoPath, listTrees, t, r);
  }

  /** What `Build` returns, given what the loop gave (`t`) and what sizing
      did with it. */
  lemma BuildOutcome(entries: seq<Entry>, repoPath: string, listTrees: bool, t: Result<Node, BuildError>,
                     r: Result<Node, BuildError>)
    requires '/' in repoPath
    requires t.Ok? <==> Assembled(entries, repoPath, listTrees).Ok?
    requires t.Ok? ==> t.value == Assembled(entries, repoPath, listTrees).value.0
    requires t.Err? ==> t.error == Assembled(entries, repoPath, listTrees).error && r == Err(t.error)
    requires t.Ok? && !Listed(t.value) ==> r == Err(BareDirSized)
    requires t.Ok? && Listed(t.value) ==>
      r.Ok? && SameButSizes(t.value, r.value) && Sized(r.value) && r.value.size == FileTotal(t.value)
    ensures r.Ok? <==> Assembled(entries, repoPath, listTrees).Ok? && Listed(Assembled(entries, repoPath, listTrees).value.0)
    ensures r.Ok? ==> SameButSizes(Assembled(entries, repoPath, listTrees).value.0, r.value)
    ensures r.Err? ==> r.error == if Assembled(entries, repoPath, listTrees).Err?
                                  then Assembled(entries, repoPath, listTrees).error else BareDirSized
    ensures r.Ok? ==> r.value.Dir? && r.value.name == RootName(repoPath)
    ensures r.Ok? ==> r.value.path == "" && r.value.mode == DirMode
    ensures r.Ok? ==> Sized(r.value) && Listed(r.value) && Coherent(r.value)
    ensures r.Ok? ==> multiset(Files(r.value)) == multiset(EntryFiles(entries))
    ensures r.Ok? ==> r.value.size == EntryTotal(entries)
    ensures r.Ok? && GitHubListing(entries) ==> ShapedTree(entries, r.value)
    ensures !listTrees && !NoTreeEntries(entries) ==> r.Err?
    ensures listTrees && WellFormedListing(entries) ==> r.Ok?
    ensures FlatListing(entries) && (listTrees || NoTreeEntries(entries))
      ==> r == Ok(Dir(RootName(repoPath), "", EntryTotal(entries), DirMode, FlatNodes(entries)))
  {
    InsertedAll(entries, RootName(repoPath), listTrees, t);
    if t.Ok? && Listed(t.value) {
      SameButSizesFiles(t.value, r.value);
      SameButSizesCoherent(t.value, r.value);
      if FlatListing(entries) {
        FlatSized(entries, listTrees, t.value.children, r.value.children);
      }
      if GitHubListing(entries) {
        var (t', m') := Assembled(entries, repoPath, listTrees).value;
        InsertedBuilt(entries, |entries|, RootName(repoPath), listTrees);
        ShapedAll(entries, t', m');
        ShapedSized(entries, t.value, r.value);
      }
    }
  }

  /** Sizing the pushed nodes of a flat listing yields its flat nodes. */
  lemma FlatSized(es: seq<Entry>, listTrees: bool, pushed: seq<Node>, sized: seq<Node>)
    requires pushed == Pushed(es, listTrees) && |sized| == |pushed|
    requires forall i | 0 <= i < |pushed| :: SameButSizes(pushed[i], sized[i]) && Sized(sized[i]) && Listed(pushed[i])
    ensures sized == FlatNodes(es)
  {
    forall i | 0 <= i < |es| ensures sized[i] == FlatNode(es[i]) {
      if es[i].kind == TreeKind {
        assert pushed[i].Dir?;
        assert sized[i].children == [];
      }
    }
  }

  /** Recomputing sizes keeps a tree coherent. */
  lemma {:induction false} SameButSizesCoherent(a: Node, b: Node)
    requires SameButSizes(a, b) && Coherent(a)
    ensures Coherent(b)
  {
    if a.Dir? {
      forall i | 0 <= i < |b.children| ensures ChildOf(b.path, b.children[i]) && Coherent(b.children[i]) {
        SameButSizesCoherent(a.children[i], b.children[i]);
      }
    }
  }

  /** `buildTree` exactly as written: a listing entry of type 'tree'
      becomes an object without children array, and `calculateSize` throws
      on it, so every listing that names a directory fails. */
  method BuildTreeAsWritten(entries: seq<Entry>, repoPath: string) returns (r: Result<Node, BuildError>)
    requires '/' in repoPath
    ensures !NoTreeEntries(entries) ==> r.Err?
    ensures r.Ok? ==> Sized(r.value) && Listed(r.value) && r.value.size == EntryTotal(entries)
    ensures r.Ok? && GitHubListing(entries) ==> ShapedTree(entries, r.value)
    ensures FlatListing(entries) && NoTreeEntries(entries)
      ==> r == Ok(Dir(RootName(repoPath), "", EntryTotal(entries), DirMode, FlatNodes(entries)))
  {
    r := Build(entries, repoPath, false);
  }

  /** `buildTree` with 'tree' entries given an empty children array. A
      GitHub listing always builds, into the tree it describes; the tree
      holds each file of the listing once, sized and coherent; an empty
      listing gives an empty root. */
  method BuildTree(entries: seq<Entry>, repoPath: string) returns (r: Result<Node, BuildError>)
    requires '/' in repoPath
    ensures r.Ok? <==> Assembled(entries, repoPath, true).Ok?
    ensures r.Err? ==> r.error == Assembled(entries, repoPath, true).error
    ensures r.Ok? ==> SameButSizes(Assembled(entries, repoPath, true).value.0, r.value)
    ensures WellFormedListing(entries) ==> r.Ok?
    ensures r.Ok? ==> r.value.Dir? && r.value.name == RootName(repoPath)
    ensures r.Ok? ==> r.value.path == "" && r.value.mode == DirMode
    ensures r.Ok? ==> Sized(r.value) && Listed(r.value) && Coherent(r.value)
    ensures r.Ok? ==> multiset(Files(r.value)) == multiset(EntryFiles(entries))
    ensures r.Ok? ==> r.value.size == EntryTotal(entries)
    ensures r.Ok? && GitHubListing(entries) ==> ShapedTree(entries, r.value)
    ensures FlatListing(entries)
      ==> r == Ok(Dir(RootName(repoPath), "", EntryTotal(entries), DirMode, FlatNodes(entries)))
    ensures entries == [] ==> r == Ok(Dir(RootName(repoPath), "", 0, DirMode, []))
  {
    r := Build(entries, repoPath, true);
    BuildTreeOutcome(entries, repoPath, r);
  }

  /** With 'tree' entries given children, `Build` fails only where the loop
      does. */
  lemma BuildTreeOutcome(entries: seq<Entry>, repoPath: string, r: Result<Node, BuildError>)
    requires '/' in repoPath
    requires r.Ok? <==> Assembled(entries, repoPath, true).Ok? && Listed(Assembled(entries, repoPath, true).value.0)
    requires r.Err? ==> r.error == if Assembled(entries, repoPath, true).Err?
                                   then Assembled(entries, repoPath, true).error else BareDirSized
    requires r.Ok? ==> SameButSizes(Assembled(entries, repoPath, true).value.0, r.value)
    requires r.Ok? ==> r.value.Dir? && r.value.name == RootName(repoPath)
    requires r.Ok? ==> r.value.path == "" && r.value.mode == DirMode
    requires r.Ok? ==> Sized(r.value) && Listed(r.value) && Coherent(r.value)
    requires r.Ok? ==> multiset(Files(r.value)) == multiset(EntryFiles(entries))
    requires r.Ok? ==> r.value.size == EntryTotal(entries)
    requires r.Ok? && GitHubListing(entries) ==> ShapedTree(entries, r.value)
    requires WellFormedListing(entries) ==> r.Ok?
    requires FlatListing(entries)
      ==> r == Ok(Dir(RootName(repoPath), "", EntryTotal(entries), DirMode, FlatNodes(entries)))
    ensures r.Ok? <==> Assembled(entries, repoPath, true).Ok?
    ensures r.Err? ==> r.error == Assembled(entries, repoPath, true).error
    ensures r.Ok? ==> SameButSizes(Assembled(entries, repoPath, true).value.0, r.value)
    ensures WellFormedListing(entries) ==> r.Ok?
    ensures r.Ok? ==> r.value.Dir? && r.value.name == RootName(repoPath)
    ensures r.Ok? ==> r.value.path == "" && r.value.mode == DirMode
    ensures r.Ok? ==> Sized(r.value) && Listed(r.value) && Coherent(r.value)
    ensures r.Ok? ==> multiset(Files(r.value)) == multiset(EntryFiles(entries))
    ensures r.Ok? ==> r.value.size == EntryTotal(entries)
    ensures r.Ok? && GitHubListing(entries) ==> ShapedTree(entries, r.value)
    ensures FlatListing(entries)
      ==> r == Ok(Dir(RootName(repoPath), "", EntryTotal(entries), DirMode, FlatNodes(entries)))
    ensures entries == [] ==> r == Ok(Dir(RootName(repoPath), "", 0, DirMode, []))
  {
    var a := Assembled(entries, repoPath, true);
    var t: Result<Node, BuildError> := if a.Ok? then Ok(a.value.0) else Err(a.error);
    InsertedAll(entries, RootName(repoPath), true, t);
    if entries == [] {
      assert FlatListing(entries);
    }
  }
}
