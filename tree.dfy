/** The diagram tree that `buildTree` produces and every other operation
    walks, with the measures the statistics and the size aggregation are
    stated in: the files of a tree in pre-order, their total size, and the
    shape and path invariants a built tree keeps. */
module Tree {
  import opened Text

  /** One node of the tree. The source's nodes are objects with a `type`
      ('blob' or 'tree') and, for directories, a `children` array:
      - `File`: type 'blob', no children (a blob or submodule entry);
      - `Dir`: type 'tree' with a children array (the root, every
        directory `buildTree` creates for a missing prefix);
      - `BareDir`: type 'tree' WITHOUT a children array, which is what
        `buildTree` makes of a listing entry of type 'tree'. */
  datatype Node =
    | File(name: string, path: string, size: nat, mode: string)
    | Dir(name: string, path: string, size: nat, mode: string, children: seq<Node>)
    | BareDir(name: string, path: string, size: nat, mode: string)

  /** The mode string the source gives every directory it creates itself. */
  const DirMode := "040000"

  /** The identifier of a node in the expansion set and the layout map:
      its path, or the sentinel "root" for the empty path. A real
      top-level entry called "root" gets the same identifier. */
  function Id(n: Node): string
  {
    if n.path == "" then "root" else n.path
  }

  /** Every node of type 'tree' carries a children array; the traversals
      that iterate `node.children` without a check throw otherwise. */
  predicate Listed(n: Node)
  {
    match n
    case File(_, _, _, _) => true
    case Dir(_, _, _, _, cs) => forall i | 0 <= i < |cs| :: Listed(cs[i])
    case BareDir(_, _, _, _) => false
  }

  // ---------------------------------------------------------------------
  // the files of a tree, in pre-order

  function Files(n: Node): seq<Node>
  {
    match n
    case File(_, _, _, _) => [n]
    case Dir(_, _, _, _, cs) => FilesOf(cs)
    case BareDir(_, _, _, _) => []
  }

  function FilesOf(cs: seq<Node>): seq<Node>
  {
    if cs == [] then [] else Files(cs[0]) + FilesOf(cs[1..])
  }

  /** Every node listed by `Files` is a file. */
  lemma {:induction false} FilesAreFiles(n: Node)
    ensures forall i | 0 <= i < |Files(n)| :: Files(n)[i].File?
  {
    match n
    case File(_, _, _, _) =>
    case BareDir(_, _, _, _) =>
    case Dir(_, _, _, _, cs) => FilesOfAreFiles(cs);
  }

  lemma {:induction false} FilesOfAreFiles(cs: seq<Node>)
    ensures forall i | 0 <= i < |FilesOf(cs)| :: FilesOf(cs)[i].File?
  {
    if cs != [] {
      FilesAreFiles(cs[0]);
      FilesOfAreFiles(cs[1..]);
      var a: seq<Node>, b: seq<Node> := Files(cs[0]), FilesOf(cs[1..]);
      forall i | 0 <= i < |a + b| ensures (a + b)[i].File? {
        if i >= |a| { assert (a + b)[i] == b[i - |a|]; }
      }
    }
  }

  lemma {:induction false} FilesOfAppend(a: seq<Node>, b: seq<Node>)
    ensures FilesOf(a + b) == FilesOf(a) + FilesOf(b)
  {
    if a != [] {
      assert (a + b)[1..] == a[1..] + b;
      FilesOfAppend(a[1..], b);
    } else {
      assert a + b == b;
    }
  }

  lemma FilesOfSnoc(cs: seq<Node>, i: nat)
    requires i < |cs|
    ensures FilesOf(cs[..i + 1]) == FilesOf(cs[..i]) + Files(cs[i])
  {
    assert cs[..i + 1] == cs[..i] + [cs[i]];
    FilesOfAppend(cs[..i], [cs[i]]);
    assert [cs[i]][1..] == [];
  }

  // ---------------------------------------------------------------------
  // sums over a list of files

  function SumSizes(fs: seq<Node>): nat
  {
    if fs == [] then 0 else SumSizes(fs[..|fs| - 1]) + fs[|fs| - 1].size
  }

  /** The rough line count of the statistics: `Math.floor(size / 50)` per file. */
  function SumLines(fs: seq<Node>): nat
  {
    if fs == [] then 0 else SumLines(fs[..|fs| - 1]) + fs[|fs| - 1].size / 50
  }

  lemma {:induction false} SumsAppend(a: seq<Node>, b: seq<Node>)
    ensures SumSizes(a + b) == SumSizes(a) + SumSizes(b)
    ensures SumLines(a + b) == SumLines(a) + SumLines(b)
    decreases |b|
  {
    if b == [] {
      assert a + b == a;
    } else {
      var b' := b[..|b| - 1];
      assert (a + b)[..|a + b| - 1] == a + b';
      SumsAppend(a, b');
    }
  }

  /** The size of every file of a tree, added up. */
  function FileTotal(n: Node): nat
  {
    SumSizes(Files(n))
  }

  /** The line estimate never exceeds a fiftieth of the total size. */
  lemma {:induction false} LinesBoundedBySize(fs: seq<Node>)
    ensures SumLines(fs) * 50 <= SumSizes(fs)
  {
    if fs != [] {
      LinesBoundedBySize(fs[..|fs| - 1]);
    }
  }

  // ---------------------------------------------------------------------
  // countFiles (app.js:411-418)

  /** The number of blobs below (and including) `n`. */
  function CountFiles(n: Node): (r: nat)
    requires Listed(n)
    ensures r == |Files(n)|
    ensures n.Dir? && n.children == [] ==> r == 0
  {
    match n
    case File(_, _, _, _) => 1
    case Dir(_, _, _, _, cs) => CountFilesOf(cs)
  }

  function CountFilesOf(cs: seq<Node>): (r: nat)
    requires forall i | 0 <= i < |cs| :: Listed(cs[i])
    ensures r == |FilesOf(cs)|
  {
    if cs == [] then 0 else CountFiles(cs[0]) + CountFilesOf(cs[1..])
  }

  /** The number of directory nodes below (and including) `n`. */
  function CountDirs(n: Node): nat
  {
    match n
    case File(_, _, _, _) => 0
    case Dir(_, _, _, _, cs) => 1 + CountDirsOf(cs)
    case BareDir(_, _, _, _) => 1
  }

  function CountDirsOf(cs: seq<Node>): nat
  {
    if cs == [] then 0 else CountDirs(cs[0]) + CountDirsOf(cs[1..])
  }

  lemma {:induction false} CountDirsOfAppend(a: seq<Node>, b: seq<Node>)
    ensures CountDirsOf(a + b) == CountDirsOf(a) + CountDirsOf(b)
  {
    if a != [] {
      assert (a + b)[1..] == a[1..] + b;
      CountDirsOfAppend(a[1..], b);
    } else {
      assert a + b == b;
    }
  }

  // ---------------------------------------------------------------------
  // collectStats (app.js:450-471)

  datatype Stats = Stats(files: nat, dirs: nat, lines: nat, size: nat)

  /** The traversal of `collectStats`: the closure's counters start at
      `acc` and are bumped once per file and once per directory. */
  method Traverse(n: Node, acc: Stats) returns (out: Stats)
    requires Listed(n)
    ensures out.files == acc.files + |Files(n)|
    ensures out.dirs == acc.dirs + CountDirs(n)
    ensures out.size == acc.size + FileTotal(n)
    ensures out.lines == acc.lines + SumLines(Files(n))
    decreases n
  {
    if n.File? {
      assert [n][..0] == [];
      assert SumSizes([n]) == n.size && SumLines([n]) == n.size / 50;
      out := acc.(files := acc.files + 1, size := acc.size + n.size,
                  lines := acc.lines + n.size / 50);
    } else {
      var cs := n.children;
      out := acc.(dirs := acc.dirs + 1);
      for i := 0 to |cs|
        invariant out.files == acc.files + |FilesOf(cs[..i])|
        invariant out.dirs == acc.dirs + 1 + CountDirsOf(cs[..i])
        invariant out.size == acc.size + SumSizes(FilesOf(cs[..i]))
        invariant out.lines == acc.lines + SumLines(FilesOf(cs[..i]))
      {
        out := Traverse(cs[i], out);
        FilesOfSnoc(cs, i);
        SumsAppend(FilesOf(cs[..i]), Files(cs[i]));
        assert cs[..i + 1] == cs[..i] + [cs[i]];
        CountDirsOfAppend(cs[..i], [cs[i]]);
        assert [cs[i]][1..] == [];
      }
      assert cs[..|cs|] == cs;
    }
  }

  /** `collectStats`: files, directories (the root included), the rough
      line count and the total size of the files. */
  method CollectStats(n: Node) returns (s: Stats)
    requires Listed(n)
    ensures s.files == CountFiles(n)
    ensures s.dirs == CountDirs(n)
    ensures s.size == FileTotal(n)
    ensures s.lines == SumLines(Files(n)) && s.lines * 50 <= s.size
  {
    s := Traverse(n, Stats(0, 0, 0, 0));
    LinesBoundedBySize(Files(n));
  }

  /** The statistics of the two-level repository of the unit tests: four
      files, the root and one nested directory, 5000 bytes, about 100 lines;
      and those of an empty repository. */
  lemma StatsExample(a: Node, b: Node, c: Node, d: Node)
    requires a.File? && b.File? && c.File? && d.File?
    requires a.size == 1000 && b.size == 2000 && c.size == 500 && d.size == 1500
    ensures var repo := Dir("repo", "", 0, DirMode, [a, b, Dir("src", "src", 0, DirMode, [c, d])]);
      && CountFiles(repo) == 4 && CountDirs(repo) == 2
      && FileTotal(repo) == 5000 && SumLines(Files(repo)) == 100
    ensures var empty := Dir("repo", "", 0, DirMode, []);
      CountFiles(empty) == 0 && CountDirs(empty) == 1 && FileTotal(empty) == 0 && SumLines(Files(empty)) == 0
  {
    var src := Dir("src", "src", 0, DirMode, [c, d]);
    var repo := Dir("repo", "", 0, DirMode, [a, b, src]);
    ExampleFiles(a, b, c, d, src, repo);
    ExampleDirs(a, b, c, d, src, repo);
    ExampleSums([a, b, c, d]);
  }

  lemma ExampleFiles(a: Node, b: Node, c: Node, d: Node, src: Node, repo: Node)
    requires a.File? && b.File? && c.File? && d.File?
    requires src == Dir("src", "src", 0, DirMode, [c, d])
    requires repo == Dir("repo", "", 0, DirMode, [a, b, src])
    ensures Files(repo) == [a, b, c, d]
  {
    assert Files(a) == [a] && Files(b) == [b] && Files(c) == [c] && Files(d) == [d];
    assert [d][1..] == [] && [c, d][1..] == [d];
    assert [src][1..] == [] && [b, src][1..] == [src] && [a, b, src][1..] == [b, src];
    assert FilesOf([d]) == [d];
    assert FilesOf([c, d]) == [c, d];
    assert Files(src) == [c, d];
    assert FilesOf([src]) == [c, d];
    assert FilesOf([b, src]) == [b, c, d];
  }

  lemma ExampleDirs(a: Node, b: Node, c: Node, d: Node, src: Node, repo: Node)
    requires a.File? && b.File? && c.File? && d.File?
    requires src == Dir("src", "src", 0, DirMode, [c, d])
    requires repo == Dir("repo", "", 0, DirMode, [a, b, src])
    ensures CountDirs(repo) == 2
  {
    assert [d][1..] == [] && [c, d][1..] == [d];
    assert [src][1..] == [] && [b, src][1..] == [src] && [a, b, src][1..] == [b, src];
    assert CountDirs(c) == 0 && CountDirs(d) == 0 && CountDirsOf([d]) == 0;
    assert CountDirsOf([c, d]) == CountDirs(c) + CountDirsOf([d]) == 0;
    assert CountDirs(src) == 1 + CountDirsOf([c, d]) == 1;
    assert CountDirsOf([src]) == CountDirs(src) + CountDirsOf([]) == 1;
    assert CountDirs(b) == 0 && CountDirsOf([b, src]) == CountDirs(b) + CountDirsOf([src]) == 1;
    assert CountDirs(a) == 0 && CountDirsOf([a, b, src]) == CountDirs(a) + CountDirsOf([b, src]) == 1;
  }

  lemma ExampleSums(fs: seq<Node>)
    requires |fs| == 4
    requires fs[0].size == 1000 && fs[1].size == 2000 && fs[2].size == 500 && fs[3].size == 1500
    ensures SumSizes(fs) == 5000 && SumLines(fs) == 100
  {
    var f3, f2, f1 := fs[..3], fs[..2], fs[..1];
    assert f3[..2] == f2 && f2[..1] == f1 && f1[..0] == [];
    assert SumSizes(f1) == 1000 && SumLines(f1) == 20;
    assert SumSizes(f2) == 3000 && SumLines(f2) == 60;
    assert SumSizes(f3) == 3500 && SumLines(f3) == 70;
  }

  // ---------------------------------------------------------------------
  // directory sizes (calculateSize, app.js:185-193)

  /** The sum of the sizes of a list of sibling nodes. */
  function SizeSum(cs: seq<Node>): nat
  {
    if cs == [] then 0 else SizeSum(cs[..|cs| - 1]) + cs[|cs| - 1].size
  }

  /** Every directory's size is the sum of its children's sizes. */
  predicate Sized(n: Node)
  {
    match n
    case File(_, _, _, _) => true
    case Dir(_, _, size, _, cs) => size == SizeSum(cs) && forall i | 0 <= i < |cs| :: Sized(cs[i])
    case BareDir(_, _, _, _) => true
  }

  /** `a` and `b` are the same tree except, possibly, for directory sizes. */
  predicate SameButSizes(a: Node, b: Node)
  {
    match a
    case File(_, _, _, _) => b == a
    case BareDir(_, _, _, _) => b == a
    case Dir(name, path, _, mode, cs) =>
      && b.Dir? && b.name == name && b.path == path && b.mode == mode
      && |b.children| == |cs|
      && forall i | 0 <= i < |cs| :: SameButSizes(cs[i], b.children[i])
  }

  /** In a sized tree without bare directories the size of every node is
      the total of the files below it. */
  lemma {:induction false} SizedIsFileTotal(n: Node)
    requires Sized(n) && Listed(n)
    ensures n.size == FileTotal(n)
  {
    match n
    case File(_, _, _, _) =>
      assert [n][..0] == [];
      assert Files(n) == [n];
      assert SumSizes([n]) == n.size;
    case Dir(_, _, _, _, cs) =>
      assert cs[..|cs|] == cs;
      SizedIsFileTotalOf(cs, |cs|);
  }

  lemma {:induction false} SizedIsFileTotalOf(cs: seq<Node>, k: nat)
    requires k <= |cs|
    requires forall i | 0 <= i < |cs| :: Sized(cs[i]) && Listed(cs[i])
    ensures SizeSum(cs[..k]) == SumSizes(FilesOf(cs[..k]))
  {
    if k == 0 {
      assert cs[..0] == [];
    } else {
      var c := cs[k - 1];
      SizedIsFileTotalOf(cs, k - 1);
      SizedIsFileTotal(c);
      SizeSumSnoc(cs, k - 1);
      FilesOfSnoc(cs, k - 1);
      SumsAppend(FilesOf(cs[..k - 1]), Files(c));
    }
  }

  lemma SizeSumSnoc(cs: seq<Node>, i: nat)
    requires i < |cs|
    ensures SizeSum(cs[..i + 1]) == SizeSum(cs[..i]) + cs[i].size
  {
    assert cs[..i + 1][..i] == cs[..i];
  }

  /** Trees that differ only in directory sizes have the same files. */
  lemma {:induction false} SameButSizesFiles(a: Node, b: Node)
    requires SameButSizes(a, b)
    ensures Files(a) == Files(b)
    ensures Listed(a) == Listed(b)
  {
    if a.Dir? {
      SameButSizesFilesOf(a.children, b.children);
    }
  }

  lemma {:induction false} SameButSizesFilesOf(cs: seq<Node>, ds: seq<Node>)
    requires |cs| == |ds|
    requires forall i | 0 <= i < |cs| :: SameButSizes(cs[i], ds[i])
    ensures FilesOf(cs) == FilesOf(ds)
    ensures (forall i | 0 <= i < |cs| :: Listed(cs[i])) == (forall i | 0 <= i < |ds| :: Listed(ds[i]))
  {
    if cs != [] {
      SameButSizesFiles(cs[0], ds[0]);
      SameButSizesFilesOf(cs[1..], ds[1..]);
      assert forall i | 1 <= i < |cs| :: cs[1..][i - 1] == cs[i] && ds[1..][i - 1] == ds[i];
    }
  }

  // ---------------------------------------------------------------------
  // addresses

  /** A node designated by the child indices that lead to it from the root. */
  type Addr = seq<nat>

  predicate ValidAddr(t: Node, a: Addr)
    decreases a
  {
    a == [] || (t.Dir? && a[0] < |t.children| && ValidAddr(t.children[a[0]], a[1..]))
  }

  /** The node at an address. */
  function At(t: Node, a: Addr): Node
    requires ValidAddr(t, a)
    decreases a
  {
    if a == [] then t else At(t.children[a[0]], a[1..])
  }

  // ---------------------------------------------------------------------
  // paths

  /** `c` is a well-formed child of a node whose path is `parentPath`: its
      name is one path segment and its path is the parent's path extended
      by that name. Below the root the path is the bare name; the one
      exception the builder lets through is a root child whose path begins
      with '/' (a listing path with a leading empty segment). */
  predicate ChildOf(parentPath: string, c: Node)
  {
    && '/' !in c.name
    && (|| c.path == parentPath + "/" + c.name
        || (parentPath == "" && c.path == c.name))
  }

  /** Every child in the tree is a well-formed child of its parent. */
  predicate Coherent(n: Node)
  {
    match n
    case Dir(_, path, _, _, cs) =>
      forall i | 0 <= i < |cs| :: ChildOf(path, cs[i]) && Coherent(cs[i])
    case _ => true
  }

  /** The parent identifier `drawConnections` derives from a path
      (app.js:288-290): all but the last segment, or "root". */
  function ParentId(path: string): string
  {
    var parts := Split(path, '/');
    var parentPath := Join(parts[..|parts| - 1], '/');
    if parentPath == "" then "root" else parentPath
  }

  /** The identifier derived from a child's path is its parent's identifier. */
  lemma ParentIdOfChild(parent: Node, c: Node)
    requires ChildOf(parent.path, c)
    requires c.path != ""
    ensures ParentId(c.path) == Id(parent)
  {
    if c.path == parent.path + "/" + c.name {
      SplitSnoc(parent.path, c.name, '/');
      var ps := Split(parent.path, '/');
      assert (ps + [c.name])[..|ps|] == ps;
      JoinSplit(parent.path, '/');
    } else {
      assert Split(c.path, '/') == [c.path];
    }
  }

  /** In a coherent tree every edge drawn from a child leads to the
      identifier of the node that holds it. */
  lemma EdgesReachParent(n: Node, i: nat)
    requires n.Dir? && Coherent(n) && i < |n.children|
    requires n.children[i].path != ""
    ensures ParentId(n.children[i].path) == Id(n)
  {
    ParentIdOfChild(n, n.children[i]);
  }
}
