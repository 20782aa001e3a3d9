/** The `RepoDiagram` application object (app.js:2-13, 32-56, 58-125, 199-227,
    390-409, 442-448): the loaded tree, the view settings the controls
    change, the status line and the statistics bar, and the handlers that
    update them. */
module App {
  import opened Wrappers
  import opened Text
  import opened Tree
  import opened Builder
  import opened Expansion
  import opened Layout
  import opened Connections
  import opened Input
  import Scenarios

  /** The status line: hidden, or a message styled as an error or a
      success (`showStatus`, app.js:427-435). */
  datatype Status = Hidden | Error(message: string) | Success(message: string)

  /** The answer to the tree request: its HTTP status and, on success, the
      `tree` array of the body. The request itself is made by the caller. */
  datatype Response = Response(status: nat, entries: seq<Entry>)

  const LoadFailed := "Failed to load repository: "
  const Loaded := "Successfully loaded "

  /** The property whose read on a missing value raises `e`: a blob's
      missing parent has its `size` read first (app.js:177), any other
      entry's missing parent its `children` (app.js:180), and a parent
      without a children array has `push` read on `undefined`. */
  function ReadProperty(e: BuildError): string
    requires !e.BareDirSized?
  {
    match e
    case MissingParent(_) => "children"
    case MissingBlobParent(_) => "size"
    case NoChildList(_) => "push"
  }

  const NotIterable := "node.children is not iterable"

  /** The message of the `TypeError` `buildTree` raises, which `loadRepo`
      shows after its failure prefix (app.js:93-94): reading a property of
      `undefined` names that property, and iterating a missing children
      array says so. */
  function BuildErrorMessage(e: BuildError): (msg: string)
    ensures e.BareDirSized? ==> msg == NotIterable
    ensures !e.BareDirSized? ==> msg == "Cannot read properties of undefined (reading '" + ReadProperty(e) + "')"
  {
    match e
    case BareDirSized => NotIterable
    case _ => "Cannot read properties of undefined (reading '" + ReadProperty(e) + "')"
  }

  /** The box width and spacings `render` passes to `calculateLayout`
      (app.js:206-208). */
  function RenderDims(containerWidth: real): (d: Dims)
    ensures d.containerWidth == containerWidth
    ensures d.nodeWidth == 180.0 && d.verticalSpacing == 120.0 && d.horizontalSpacing == 40.0
  {
    Dims(containerWidth, 180.0, 120.0, 40.0)
  }

  /** `t` is what a load of `repo` made of `entries`: the tree the loop of
      `buildTree` assembles, with every size the total of what it holds; so
      a root named after the repository holding each listed file once,
      every child's path extending its parent's. */
  predicate LoadedFrom(t: Node, repo: string, entries: seq<Entry>)
  {
    && '/' in repo
    && Assembled(entries, repo, true).Ok? && SameButSizes(Assembled(entries, repo, true).value.0, t)
    && t.Dir? && t.path == "" && t.name == RootName(repo)
    && Sized(t) && Listed(t) && Coherent(t)
    && multiset(Files(t)) == multiset(EntryFiles(entries))
    && t.size == EntryTotal(entries)
  }

  /** The figures `updateStats` shows for a tree (app.js:442-448). */
  function StatsOf(t: Node): Stats
    requires Listed(t)
  {
    Stats(CountFiles(t), CountDirs(t), SumLines(Files(t)), FileTotal(t))
  }

  class RepoDiagram {
    var repoData: Option<Node>
    var expanded: set<string>
    var maxDepth: int
    var searchQuery: string
    var currentRepo: string
    var status: Status
    var stats: Option<Stats>

    /** app.js:3-13: nothing loaded, nothing expanded, two levels, no
        search. */
    constructor ()
      ensures repoData == None && expanded == {} && maxDepth == 2
      ensures searchQuery == "" && currentRepo == "" && status == Hidden && stats == None
    {
      repoData := None;
      expanded := {};
      maxDepth := 2;
      searchQuery := "";
      currentRepo := "";
      status := Hidden;
      stats := None;
    }

    /** The diagram shows the tree loaded for `repo` from `entries`, with
        only the root expanded and that tree's figures in the statistics
        bar. */
    predicate Shows(repo: string, entries: seq<Entry>)
      reads this
    {
      && repoData.Some? && LoadedFrom(repoData.value, repo, entries)
      && expanded == {"root"} && stats == Some(StatsOf(repoData.value))
    }

    /** The settings `calculateLayout` reads. */
    function CurrentView(): View
      reads this
    {
      View(expanded, maxDepth, searchQuery)
    }

    /** The search box handler (app.js:37-40): the query is kept lower-cased. */
    method SetSearchQuery(value: string)
      modifies this`searchQuery
      ensures searchQuery == Lower(value)
      ensures Lower(searchQuery) == searchQuery
    {
      searchQuery := Lower(value);
      LowerIdempotent(value);
    }

    /** The depth selector handler (app.js:41-44), with the selected
        option's number passed in. */
    method SetMaxDepth(value: int)
      modifies this`maxDepth
      ensures maxDepth == value
    {
      maxDepth := value;
    }

    /** `toggleDirectory(node)` (app.js:390-398), before it re-renders. */
    method ToggleDirectory(n: Node)
      modifies this`expanded
      ensures expanded == Toggle(old(expanded), n)
    {
      var path := if n.path == "" then "root" else n.path;
      if path in expanded {
        expanded := expanded - {path};
      } else {
        expanded := expanded + {path};
      }
    }

    /** `expandAll(node)` (app.js:400-409): adds the identifier of `n`
        and of every directory below it. */
    method ExpandAll(n: Node)
      modifies this`expanded
      ensures expanded == old(expanded) + DirIds(n)
      decreases n
    {
      expanded := expanded + {Id(n)};
      if n.Dir? {
        var cs := n.children;
        for i := 0 to |cs|
          invariant expanded == old(expanded) + {Id(n)} + DirIdsOf(cs[..i])
        {
          DirIdsOfSnoc(cs, i);
          if cs[i].Dir? || cs[i].BareDir? {
            assert cs[i] in n.children;
            ExpandAll(cs[i]);
          }
        }
        assert cs[..|cs|] == cs;
      }
    }

    /** The "Expand All" button (app.js:45-50): expands the whole loaded
        tree, and does nothing before a load. */
    method ExpandAllButton()
      modifies this`expanded
      ensures repoData.Some? ==> expanded == old(expanded) + DirIds(repoData.value)
      ensures repoData.None? ==> expanded == old(expanded)
    {
      if repoData.Some? {
        ExpandAll(repoData.value);
      }
    }

    /** The "Collapse All" button (app.js:51-54). */
    method CollapseAll()
      modifies this`expanded
      ensures expanded == {}
    {
      expanded := {};
    }

    /** `loadRepo()` (app.js:58-99) with `fetchRepoStructure` (app.js:
        101-125) and the corrected `buildTree`: the text box's content and
        the answer to the request are passed in; the address requested is
        returned. A bad input or a failed request leaves the loaded tree,
        the expansion and the statistics as they were; a success replaces
        them with the new tree, only the root expanded, and its figures. */
    method LoadRepo(raw: string, response: Response) returns (request: Option<string>)
      modifies this`repoData, this`expanded, this`currentRepo, this`status, this`stats
      ensures ParseRepoInput(raw).Err? ==>
        && status == Error(ParseRepoInput(raw).error) && request == None
        && currentRepo == old(currentRepo)
      ensures ParseRepoInput(raw).Ok? ==>
        var repo := ParseRepoInput(raw).value;
        && currentRepo == repo
        && request == Some(TreeUrl(OwnerName(repo).0, OwnerName(repo).1))
      ensures ParseRepoInput(raw).Ok? && FetchError(response.status).Some? ==>
        status == Error(LoadFailed + FetchError(response.status).value)
      ensures ParseRepoInput(raw).Ok? && FetchError(response.status).None? && WellFormedListing(response.entries) ==>
        status == Success(Loaded + ParseRepoInput(raw).value)
      ensures ParseRepoInput(raw).Ok? && FetchError(response.status).None? && !status.Success? ==>
        Assembled(response.entries, ParseRepoInput(raw).value, true).Err?
        && status == Error(LoadFailed + BuildErrorMessage(Assembled(response.entries, ParseRepoInput(raw).value, true).error))
      ensures status.Success? ==>
        && ParseRepoInput(raw) == Ok(currentRepo) && FetchError(response.status).None?
        && Shows(currentRepo, response.entries)
      ensures !status.Success? ==>
        && status.Error?
        && repoData == old(repoData) && expanded == old(expanded) && stats == old(stats)
    {
      request := Submit(ParseRepoInput(raw), response);
    }

    /** The rest of `loadRepo` once the text box is parsed (app.js:61-98):
        an error is shown as it is; an accepted repository is loaded, with
        the build and the connectors in their corrected forms. */
    method Submit(parsed: Result<string, string>, response: Response) returns (request: Option<string>)
      requires parsed.Ok? ==> '/' in parsed.value
      modifies this`repoData, this`expanded, this`currentRepo, this`status, this`stats
      ensures parsed.Err? ==> status == Error(parsed.error) && request == None && currentRepo == old(currentRepo)
      ensures parsed.Ok? ==>
        && currentRepo == parsed.value
        && request == Some(TreeUrl(OwnerName(parsed.value).0, OwnerName(parsed.value).1))
      ensures parsed.Ok? && FetchError(response.status).Some? ==>
        status == Error(LoadFailed + FetchError(response.status).value)
      ensures parsed.Ok? && FetchError(response.status).None? && WellFormedListing(response.entries) ==>
        status == Success(Loaded + parsed.value)
      ensures parsed.Ok? && FetchError(response.status).None? && !status.Success? ==>
        Assembled(response.entries, parsed.value, true).Err?
        && status == Error(LoadFailed + BuildErrorMessage(Assembled(response.entries, parsed.value, true).error))
      ensures status.Success? ==>
        && parsed == Ok(currentRepo) && FetchError(response.status).None?
        && Shows(currentRepo, response.entries)
      ensures !status.Success? ==>
        && status.Error?
        && repoData == old(repoData) && expanded == old(expanded) && stats == old(stats)
    {
      if parsed.Err? {
        status := Error(parsed.error);
        return None;
      }
      var url := Load(parsed.value, response);
      request := Some(url);
    }

    /** What `loadRepo` does once the input is accepted (app.js:79-98),
        with `fetchRepoStructure` (app.js:101-125): `repo` becomes the
        current repository, the status line is cleared, the tree of `repo`
        is requested at the returned address, and the answer is either
        reported as a failure or installed. */
    method Load(repo: string, response: Response) returns (request: string)
      requires '/' in repo
      modifies this`repoData, this`expanded, this`currentRepo, this`status, this`stats
      ensures currentRepo == repo
      ensures request == TreeUrl(OwnerName(repo).0, OwnerName(repo).1)
      ensures FetchError(response.status).Some? ==>
        status == Error(LoadFailed + FetchError(response.status).value)
      ensures FetchError(response.status).None? && WellFormedListing(response.entries) ==>
        status == Success(Loaded + repo)
      ensures FetchError(response.status).None? && !status.Success? ==>
        Assembled(response.entries, repo, true).Err?
        && status == Error(LoadFailed + BuildErrorMessage(Assembled(response.entries, repo, true).error))
      ensures status.Success? ==>
        && FetchError(response.status).None?
        && Shows(repo, response.entries)
      ensures !status.Success? ==>
        && status.Error?
        && repoData == old(repoData) && expanded == old(expanded) && stats == old(stats)
    {
      currentRepo := repo;
      status := Hidden;
      var (owner, name) := OwnerName(repo);
      request := TreeUrl(owner, name);
      var failure := FetchError(response.status);
      if failure.Some? {
        status := Error(LoadFailed + failure.value);
        return;
      }
      Install(repo, response.entries);
    }

    /** The part of `loadRepo` after a successful request (app.js:84-92):
        builds the tree and, when that does not throw, shows it with only
        the root expanded and its figures in the statistics bar. */
    method Install(repo: string, entries: seq<Entry>)
      requires '/' in repo
      modifies this`repoData, this`expanded, this`status, this`stats
      ensures WellFormedListing(entries) ==> status.Success?
      ensures status.Success? ==>
        && status == Success(Loaded + repo)
        && Shows(repo, entries)
      ensures !status.Success? ==>
        && Assembled(entries, repo, true).Err?
        && status == Error(LoadFailed + BuildErrorMessage(Assembled(entries, repo, true).error))
        && repoData == old(repoData) && expanded == old(expanded) && stats == old(stats)
    {
      var built := LoadTree(repo, entries);
      if built.Err? {
        status := Error(LoadFailed + BuildErrorMessage(built.error));
        return;
      }
      var data := built.value;
      repoData := Some(data);
      expanded := {"root"};
      var s := CollectStats(data);
      stats := Some(s);
      status := Success(Loaded + repo);
    }

    /** `render()` (app.js:199-227) with the diagram's width passed in: the
        boxes `calculateLayout` places and the connectors between them;
        nothing before a load. */
    method Render(containerWidth: real) returns (layout: map<string, Pos>, edges: set<Edge>)
      ensures repoData.None? ==> layout == map[] && edges == {}
      ensures repoData.Some? ==> layout == LayoutOf(CurrentView(), repoData.value, RenderDims(containerWidth))
      ensures edges == DrawConnections(layout, 180.0)
    {
      if repoData.None? {
        return map[], {};
      }
      layout := CalculateLayout(CurrentView(), repoData.value, RenderDims(containerWidth));
      edges := DrawConnections(layout, 180.0);
    }
  }

  /** `buildTree` as `loadRepo` uses it (app.js:84, 122), in its corrected
      form `BuildTree`: a tree it returns is the assembled tree of the
      listing, sized, and so loaded from the listing; a GitHub listing
      always gives one, shaped as the listing describes; a failure is the
      loop's exception. As written, a directory entry makes it throw
      (`BuildTreeAsWritten`). */
  method LoadTree(repo: string, entries: seq<Entry>) returns (built: Result<Node, BuildError>)
    requires '/' in repo
    ensures WellFormedListing(entries) ==> built.Ok?
    ensures built.Ok? <==> Assembled(entries, repo, true).Ok?
    ensures built.Err? ==> built.error == Assembled(entries, repo, true).error
    ensures built.Ok? ==> LoadedFrom(built.value, repo, entries)
    ensures built.Ok? && GitHubListing(entries) ==> ShapedTree(entries, built.value)
  {
    built := BuildTree(entries, repo);
  }

  /** After "Expand All", with an empty search and a depth limit not below
      the tree's height, the diagram holds one box per file and directory:
      the figures the statistics bar shows. */
  lemma ExpandAllShowsEverything(expanded: set<string>, maxDepth: int, root: Node)
    requires Listed(root) && Height(root) <= maxDepth
    ensures |Collected(View(expanded + DirIds(root), maxDepth, ""), root)|
      == StatsOf(root).files + StatsOf(root).dirs
  {
    VisitAll(View(expanded + DirIds(root), maxDepth, ""), root, 0, None, 0);
  }

  /** The expand and collapse walk-through on a repository with one
      directory holding one file: the root expanded shows the root and the
      directory; toggling the directory adds its file; collapsing all
      leaves the root alone. */
  lemma ExpandCollapseScenario(root: Node)
    requires root == Dir("test", "", 0, "", [Dir("src", "src", 0, "", [File("index.js", "src/index.js", 100, "")])])
    ensures |Collected(View({"root"}, 2, ""), root)| == 2
    ensures |Collected(View(Toggle({"root"}, root.children[0]), 2, ""), root)| == 3
    ensures |Collected(View({}, 2, ""), root)| == 1
  {
    var src := root.children[0];
    var f := src.children[0];
    assert Id(src) == "src";
    assert Toggle({"root"}, src) == {"root", "src"};
    var one := View({"root"}, 2, "");
    var both := View({"root", "src"}, 2, "");
    assert |VisitKids(one, [src], 1, "root", 0)| == 1 by {
      assert |Visit(one, src, 1, Some("root"), 0)| == 1;
      assert [src][1..] == [];
    }
    assert |VisitKids(both, [src], 1, "root", 0)| == 2 by {
      assert [f][1..] == [];
      assert |VisitKids(both, [f], 2, "src", 0)| == 1;
      assert |Visit(both, src, 1, Some("root"), 0)| == 2;
      assert [src][1..] == [];
    }
  }
  /** A listing whose only entry is the blob `/a/f`: the load fails, and
      the status line reports reading `size` of the missing parent `/a`. */
  lemma LeadingSlashMessage(es: seq<Entry>, repo: string, a: string, f: string)
    requires '/' in repo && '/' !in a && '/' !in f && a != ""
    requires |es| == 1 && es[0].path == "/" + a + "/" + f && es[0].kind == Blob
    ensures Assembled(es, repo, true) == Err(MissingBlobParent("/" + a))
    ensures ReadProperty(Assembled(es, repo, true).error) == "size"
  {
    Scenarios.LeadingSlashBlob(es, RootName(repo), a, f);
  }
}
