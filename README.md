# repo-diagram tree engine, modelled in Dafny

repo-diagram is a single-page app. It reads a GitHub repository name
(`owner/repo`, or a github.com address), fetches the repository's recursive
tree listing and draws the directory tree as rows of boxes joined by
connector lines. All of its logic is in the `RepoDiagram` class of `app.js`.
This project models the engine under the page:

- `buildTree` and its `calculateSize` pass (`builder.dfy`). This is imperative
  code: a `nodeMap` dictionary, pushes into `children` arrays, size updates.
  It is modelled with methods that thread the tree value and the map. An
  address (a path of child indices) stands for the identity of a JS object.
- The tree, `countFiles` and `collectStats` (`tree.dfy`).
- The expansion set: `toggleDirectory`, `expandAll`, collapse-all
  (`expansion.dfy`, and the class in `app.dfy`).
- `calculateLayout` (`layout.dfy`), in two parts:
  - the pre-order `collectNodes` walk, which decides what is shown;
  - the per-level rows, each centred in the container.
- `drawConnections` (`connections.dfy`): parent identifiers and connector
  geometry.
- The repository text box, the owner/name split, the request address, the
  error message for a failed response and the unit `formatSize` picks
  (`input.dfy`).
- The `RepoDiagram` object itself (`app.dfy`): a class whose fields are the
  loaded tree, the expanded identifiers, the depth limit, the search query,
  the current repository, the status line and the statistics. Its methods
  are the event handlers, `loadRepo`, `expandAll` and `render`.
- Worked listings (`scenarios.dfy`): what `buildTree` makes, step by step,
  of the listings in the nested-directory and directory-size unit tests.

Supporting modules:

- `text.dfy`: the string operations the code relies on (`split`, `join`,
  `includes`, `trim`, `toLowerCase`, decimal printing).
- `wrappers.dfy`: `Option` and `Result`.

Node identifiers are strings: the path, or `"root"` for the root. A
top-level entry named `root` therefore shares the root's identifier, and
`Layout.RootCollision` shows the layout losing the root box to it.

Where the repository's tests expect something the code does not do, the model
follows the code:

- The tests sort directories first. The code never sorts: sibling order is
  listing order.
- The tests name the root `owner/repo`. The code names it after the second
  segment of the repository.
- The nested-directory test (tests/unit/repoDiagram.test.js:51-69) expects
  `src` to have 2 children. The code gives it 3: `index.js`, `utils` and
  `components`, and `Scenarios.NestedTest` proves 3.
- The `collectStats` unit test (tests/unit/repoDiagram.test.js:201-225)
  expects a size of 4000. Its files weigh 1000 + 2000 + 500 + 1500 = 5000, and
  `Tree.StatsExample` proves 5000.

The code accepts the bare address `https://github.com/`. The text after the
marker is empty, so the input is kept whole, and it contains a `/`.
`Input.BareHostAccepted` states this as written.

## Model

| member | source | states |
|---|---|---|
| Text.Split | app.js:140 | `split` yields at least one part and no part contains the separator |
| Text.JoinSplit | app.js:140-142 | joining the parts of a split gives back the string |
| Text.SplitJoin | app.js:288-289 | splitting parts joined with a separator they lack gives back the parts |
| Text.IndexOf | app.js:67-68 | the first occurrence at or after a position; none means no occurrence at or after it |
| Text.Trim | app.js:59 | the trimmed text sits at a position of the input with only white space before and after it, has no white space at either end, and is empty exactly when the input is all white space |
| Text.TrimIdempotent | app.js:59 | trimming twice is trimming once |
| Text.Lower | app.js:38 | `toLowerCase` keeps the length and lowers each character |
| Text.LowerIdempotent | app.js:38 | a lower-cased query has no upper-case letter and is its own lower case |
| Text.Decimal | app.js:118 | the printed status is digits only, with no leading zero |
| Text.DecimalRoundTrip | app.js:118 | reading the printed number back gives the number |
| Text.DecimalInjective | app.js:118 | distinct numbers print differently |
| Tree.CountFiles | app.js:411-418 | `countFiles` is the number of files below the node; an empty directory has 0 |
| Tree.Traverse | app.js:456-467 | the traversal adds one file per blob, one directory per tree node, the blobs' sizes and their `floor(size/50)` |
| Tree.CollectStats | app.js:450-471 | files equal `countFiles`, dirs count every tree node including the root, size is the total of the files, and lines is at most size/50 |
| Tree.LinesBoundedBySize | app.js:460 | the line estimate times 50 never exceeds the total size |
| Tree.StatsExample | tests/unit/repoDiagram.test.js:171-235 | the nested example has 4 files, 2 directories, 5000 bytes and 100 lines; an empty repository has 0, 1, 0 and 0 |
| Tree.SizedIsFileTotal | app.js:185-194 | when every directory's size is the sum of its children's, every node's size is the total of the files below it |
| Tree.ParentIdOfChild | app.js:288-290 | the parent identifier derived from a child's path is the identifier of the node holding it |
| Tree.EdgesReachParent | app.js:285-292 | in a coherent tree, every child's derived parent identifier names its own parent |
| Builder.NodeFor | app.js:168-174 | an entry's node keeps its path, size and mode, is named by the last segment, and is a blob exactly when the entry is not of type 'tree' |
| Builder.LastSegment | app.js:141 | the file name has no `/` |
| Builder.PathShape | app.js:140-142 | a path is its directory path, `/` and its last segment, or the bare segment at the top |
| Builder.CalculateSize | app.js:185-194 | succeeds exactly when every tree node has a children list; then only sizes change, every directory's size is the sum of its children's, and the root's is the total of its files |
| Builder.SizeChildren | app.js:187-190 | the loop sizes each child and the children's sizes add up to the total of their files |
| Builder.EnsureDir | app.js:151-163 | a recorded directory is left as it is; a missing one is pushed as an empty directory under its parent and recorded, and nothing else recorded moves; it fails exactly when the directory is missing and its parent has no children list |
| Builder.EnsuredFrom | app.js:145-165 | walking an entry's directory segments records exactly the missing prefixes, changes nothing when all are recorded, and does not fail when no file lies on the way |
| Builder.EnsureParents | app.js:145-165 | the loop over the directory segments does that walk |
| Builder.LocateParent | app.js:144-167 | a recorded parent directory is found as is, or fails without a children list; otherwise the missing directories are made; the parent ends up recorded under the entry's directory path; a top-level path finds the root unchanged |
| Builder.Push | app.js:176-181 | appends a node to its parent and records it in `nodeMap`, leaving every other recorded node in place |
| Builder.AttachTotals | app.js:176-180 | appending a node adds its files to the tree's files and its size to the total |
| Builder.AddEntryAdded | app.js:139-181 | one iteration pushes the entry's node, named by the last path segment, into its parent directory and records it; a blob's size is added to the parent; it does not fail when the parent exists or can be made; a top-level entry becomes the root's last child |
| Builder.FindParent | app.js:140-167 | the lookup as the code does it: split the path, make the missing parents, take `nodeMap[dirPath]`; it is exactly `LocateParent` |
| Builder.Raised | app.js:167-180 | with no parent object, a blob's iteration raises the error of reading `size` of it (line 177); every other failure is the lookup's own |
| Builder.InsertOne | app.js:140-181 | the loop body does that iteration |
| Builder.InsertedStops | app.js:139-182 | after an iteration fails, the outcome stays that error (the throw leaves the loop) |
| Builder.InsertedBuilt | app.js:137-182 | after any number of iterations the tree holds exactly those entries' files and sizes; on a GitHub listing every named path is recorded once, files exactly at blob paths, siblings in listing order; with trees listed a well-formed listing does not fail, nor does a flat one |
| Builder.BuiltAll | app.js:137-182 | after the whole listing the root holds exactly the listing's files; a flat listing's nodes are the root's children in listing order |
| Builder.ShapedAll | app.js:139-182 | the recorded state of a GitHub listing is the tree the listing describes: one object per named path, files at the blob paths, each under its directory path, siblings in order of first mention |
| Builder.InsertAll | app.js:137-182 | after the loop the tree holds the listing's files, is coherent and, for a flat listing, keeps listing order |
| Builder.Build | app.js:127-197 | a successful build is a coherent, sized root named after the repository holding each listed file once |
| Builder.BuildTreeAsWritten | app.js:168-194 | as written, any listing with a 'tree' entry fails |
| Builder.BuildTree | app.js:127-197 | corrected: a well-formed listing always builds; an empty listing gives an empty root of size 0 |
| Scenarios.EnsuredOneNew | app.js:145-165 | a path with one missing directory above it gets that directory pushed onto the root |
| Scenarios.EnsuredSubdir | app.js:145-165 | a path whose top directory is recorded gets only the missing subdirectory, pushed into that directory |
| Scenarios.EnsuredTwoNew | app.js:145-165 | a path with two missing directories gets both, the second inside the first |
| Scenarios.LocateOneNew | app.js:144-167 | the parent of `d/f` with `d` missing is the new last child of the root |
| Scenarios.LocateSubdir | app.js:144-167 | the parent of `a/b/f` with only `a` recorded is a new last child of `a` |
| Scenarios.LocateTwoNew | app.js:144-167 | the parent of `a/b/f` with neither recorded is `b`, made inside a new `a` |
| Scenarios.AddUnderTop | app.js:139-181 | a blob under a recorded top-level directory is appended to it, and its size added to it |
| Scenarios.AddUnderNewTop | app.js:139-181 | a blob under a missing top-level directory gets a new directory at the root's end, holding just that blob and sized by it |
| Scenarios.AddUnderNewSub | app.js:139-181 | a blob two levels down under a recorded top directory gets a new subdirectory at the end of that directory |
| Scenarios.AddUnderTwoNew | app.js:139-181 | a blob two levels down with neither directory recorded gets both; only the lower one takes its size |
| Scenarios.SizesInserted | tests/unit/repoDiagram.test.js:71-78 | the loop over the size test's listing ends with `dir1` holding the first two files and `dir2` the third, each recorded in `nodeMap` |
| Scenarios.SizesResult | app.js:127-197 | after `calculateSize` the size test's root is that tree with `dir1` weighing its two files, `dir2` its one, and the root all three |
| Scenarios.SizesBuilt | app.js:127-197 | `buildTree` on any listing of that shape returns that tree |
| Scenarios.SizesTest | tests/unit/repoDiagram.test.js:71-86 | on the test's listing `dir1` and `dir2` weigh 1000 each and the root 2000 |
| Scenarios.NestedInserted | tests/unit/repoDiagram.test.js:51-59 | the loop over the nested test's listing ends with `src` holding `index.js`, `utils` and `components` in listing order, and `tests` holding `unit`; every object recorded at its address |
| Scenarios.NestedResult | app.js:127-197 | after `calculateSize` each directory of the nested test weighs the files below it |
| Scenarios.NestedBuilt | app.js:127-197 | `buildTree` on any listing of that shape returns that whole tree |
| Scenarios.LeadingSlashBlob | app.js:145-180 | for the single blob `/a/f` the parent loop makes `a` but never `/a`, so the iteration raises the missing-parent error of a blob |
| Scenarios.NestedTest | tests/unit/repoDiagram.test.js:51-69 | on the test's listing the root `repo` has `src` and `tests`; `src` is a directory with 3 children (the test expects 2); its `utils` holds `helper.js`; the root weighs 750 |
| Expansion.Toggle | app.js:390-398 | the node's identifier flips membership and nothing else changes |
| Expansion.ToggleTwice | app.js:390-398 | toggling twice restores the set |
| Expansion.ExpandTwice | app.js:400-409 | expanding a subtree a second time adds nothing |
| Expansion.DirIdsAreDirectories | app.js:400-409 | `expandAll` adds the node's identifier and those of all directories below it, and no other |
| Expansion.DirIdsOfSnoc | app.js:403-407 | the identifiers added grow child by child |
| Layout.VisitItems | app.js:235-262 | every collected node carries its own identifier and is shown; below the start it lies within the depth limit; at or past the limit it matches the search |
| Layout.VisitReaches | app.js:235-262 | conversely, a node the walk reaches (every node above it is expanded, a directory and above the depth limit) and that is shown at its level is collected, with the parent identifier and index it is handed |
| Layout.VisitFrom | app.js:235-262 | every collected item is the item of such a reached, shown node; with `VisitReaches`, the walk collects exactly these |
| Layout.VisitLevels | app.js:235-262 | every collected node below the start follows a collected node one level up |
| Layout.PushLevelsInOrder | app.js:245-247 | `levelNodes` gets its levels as keys in increasing order 0, 1, 2, ... |
| Layout.VisitMonotone | app.js:242-253 | expanding more or raising the depth limit only adds boxes |
| Layout.VisitAll | app.js:235-262 | with an empty search, all directories expanded and enough depth, every node is shown once |
| Layout.VisitParents | app.js:249-258 | every shown node with a parent comes after a shown item with that parent's identifier, one level up |
| Layout.VisitParentIds | app.js:249-258 | a shown node's recorded parent identifier is the one derived from its path |
| Layout.PushAllRows | app.js:245-250 | each level's row is the collected items of that level, in collection order |
| Layout.CollectNodes | app.js:235-262 | `collectNodes` pushes exactly the items of the pre-order walk |
| Layout.CollectChildren | app.js:253-259 | the loop over the children pushes their items in order with their indices |
| Layout.RowCentred | app.js:266-272 | boxes in a row are one box width plus spacing apart, and the row is centred |
| Layout.RowExample | app.js:266-272 | three boxes 180 wide and 40 apart in a 1000-wide container sit at 190, 410 and 630 |
| Layout.PlaceNodes | app.js:265-275 | the per-level loop places the row's boxes left to right |
| Layout.CalculateLayout | app.js:229-278 | the method computes the layout the walk and the rows define |
| Layout.LayoutKeys | app.js:265-275 | the layout's keys are exactly the identifiers of the collected nodes |
| Layout.LayoutLast | app.js:265-275 | `layout.set` overwrites: the item that is last with its identifier in placing order (levels in increasing order, left to right within a level) gives that identifier's entry, at its row's slot: x from its rank in the level, y from the level |
| Layout.LayoutEntry | app.js:265-275 | every entry of the layout is the slot of the last item with its identifier, in placing order |
| Layout.LayoutAt | app.js:265-275 | with distinct identifiers, each collected node is at its own row's slot |
| Layout.ExampleLayout | app.js:229-278 | the root of the layout unit test at (310, 50), its two children at (200, 170) and (420, 170) |
| Layout.RootCollision | app.js:236 | a top-level entry named `root` overwrites the root's box |
| Connections.Connector | app.js:294-297 | a connector runs from the bottom centre of the parent's box to the top centre of the child's |
| Connections.AsWrittenAgrees | app.js:285-302 | as written, drawing agrees with the intended lines exactly when there is no line to draw |
| Connections.ParentShown | app.js:249-258 | a shown non-root node's parent is shown earlier, one level up, under the derived identifier |
| Connections.EdgeToParent | app.js:285-300 | every shown non-root node gets a connector from its parent's box one row above |
| Connections.EdgesSpanOneRow | app.js:294-297 | every connector spans one vertical spacing less the 50 it starts below the parent's top |
| Connections.ExampleConnections | app.js:280-302 | on the layout unit test the code throws, where two connectors were intended |
| Connections.TopLevelParent | app.js:288-290 | a path without `/` has the root as its parent |
| Input.AfterMarker | app.js:67-71 | absent exactly when there is no `github.com/`; otherwise the text that starts right after the first occurrence and runs up to the next occurrence, or to the end |
| Input.StripGit | app.js:70 | removes one trailing `.git`, and only that |
| Input.ParseRepoInput | app.js:59-77 | blank input is refused as empty, and non-blank input whose repository part lacks `/` as badly formatted (both directions); an accepted repository is that part, contains `/` and occurs in the input |
| Input.ParsePlain | app.js:59-77 | a trimmed `owner/repo` without the marker is accepted as is |
| Input.NoSlashRejected | app.js:74-77 | a non-blank input without `/` is refused as badly formatted |
| Input.ParseExamples | app.js:59-63 | empty and all-blank inputs are refused as empty |
| Input.ParseUrl | app.js:67-71 | `https://github.com/owner/repo`, with or without `.git`, gives `owner/repo` |
| Input.ParseAddress | app.js:67-71 | an address gives the text after the host less a trailing `.git` |
| Input.AddressWithoutSlash | app.js:67-77 | an address whose text after the host, less `.git`, has no `/` is refused as badly formatted |
| Input.OwnerOnlyRejected | app.js:67-77 | `https://github.com/foo` is refused as badly formatted |
| Input.ParseVia | app.js:67-71 | the text after the marker, less `.git`, is accepted when it contains `/` |
| Input.BareHostAccepted | app.js:69 | the bare host address is kept whole and accepted |
| Input.OwnerName | app.js:102 | owner and name have no `/`, spell the start of the repository, and the name ends at the end or at a `/` |
| Input.OwnerNameRoundTrip | app.js:102 | `owner/name` splits back into owner and name |
| Input.TreeUrl | app.js:105 | the request address contains `owner/name` |
| Input.FetchError | app.js:111-119 | no error exactly for statuses 200-299; 404 and 403 have their own messages |
| Input.FetchErrorNamesStatus | app.js:118 | any other failing status gets the prefixed message, and the status can be read back from it |
| Input.FetchErrorInjective | app.js:111-119 | different failing statuses give different messages |
| Input.FormatSize | app.js:420-425 | bytes exactly below 1024, printed in decimal; otherwise the amount times the unit is the size, between 1 and 1024 below GB |
| Input.FormatSizeMonotone | app.js:420-425 | a larger size never gets a smaller unit |
| Input.FormatSizeExamples | app.js:420-425 | 500 B, 0 B, 1.0 KB, 1.5 KB, 1.0 MB and 1.0 GB |
| App.RenderDims | app.js:205-208 | boxes 180 wide, rows 120 apart, boxes 40 apart |
| App.RepoDiagram.constructor | app.js:3-13 | nothing loaded, nothing expanded, depth 2, no search |
| App.RepoDiagram.SetSearchQuery | app.js:37-40 | the stored query is the input lower-cased, and stays so |
| App.RepoDiagram.SetMaxDepth | app.js:41-44 | the depth limit becomes the chosen number |
| App.RepoDiagram.ToggleDirectory | app.js:390-398 | the expanded set becomes the toggled set |
| App.RepoDiagram.ExpandAll | app.js:400-409 | the expanded set gains exactly the node's and its directories' identifiers |
| App.RepoDiagram.ExpandAllButton | app.js:45-50 | expands the whole loaded tree; does nothing before a load |
| App.RepoDiagram.CollapseAll | app.js:51-54 | the expanded set becomes empty |
| App.BuildErrorMessage | app.js:93-190 | the status text of a build error names the property read on `undefined`: `size` for a blob whose parent is missing, `children` for another entry's missing parent, `push` for a parent without children; a missing children array is "not iterable" |
| App.LeadingSlashMessage | app.js:145-180 | the listing of the single blob `/a/f` fails with the missing parent `/a`, and the message reads `size` |
| App.LoadTree | app.js:84-197 | the tree the load installs is the tree the loop assembles from the listing, with directory sizes totalled (so its shape, duplicates and sibling order are those of `buildTree`); a failure is the loop's error; with the corrected build, a GitHub listing always loads, shaped as it describes |
| App.RepoDiagram.LoadRepo | app.js:58-125 | bad input shows its message; a failed request shows its status message; otherwise the listing's assembled tree is loaded with only the root expanded, or the build error's message is shown; a failure keeps the previous tree |
| App.RepoDiagram.Submit | app.js:74-98 | with the build and the connectors corrected: a refused input shows its message and requests nothing; an accepted one becomes current and its tree address is requested; success means the listing's assembled tree is shown with only the root expanded and its statistics; a build error shows its message; otherwise the previous tree, expansion and statistics stay |
| App.RepoDiagram.Load | app.js:79-125 | the accepted repository becomes current; its tree address is requested; a failing status shows its message and keeps the previous tree; a well-formed listing is loaded as the assembled tree; a build error shows its message |
| App.RepoDiagram.Install | app.js:84-98 | a well-formed listing is shown as its assembled tree, sized, with only the root expanded and its statistics; a build error shows "Failed to load repository: " and that error's message, and keeps the previous state |
| App.RepoDiagram.Render | app.js:199-227 | nothing before a load; then the layout of the current view and its connectors |
| App.ExpandAllShowsEverything | app.js:400-409 | after expand-all with an empty search and enough depth, there are as many boxes as files plus directories |
| App.ExpandCollapseScenario | tests/e2e/repoDiagram.e2e.test.js:274-323 | root expanded shows 2 boxes; toggling `src` shows 3; collapsing all shows 1 |

## Left out

- The DOM and the page: `initElements`, `createNodeElement`, `showLoading`,
  `showFileInfo`, `exportSVG` and the SVG element calls. `render` and
  `drawConnections` are modelled by the positions and lines they produce.
- `createNodeElement`'s text is not modelled: border colours, icons, the
  "items" count and the search highlight. The highlight builds a `RegExp`
  from the raw query.
- The network, `await` and JSON parsing. `LoadRepo` takes the response status
  and the listing as parameters and returns the requested address.
- `formatSize`'s one-decimal text (`toFixed`). The model keeps the exact
  amount and the unit, and prints only the byte case.
- Builder.Build: `nodeMap` is a plain JS object, so keys such as
  `constructor` or `__proto__` hit inherited properties. The model's map has
  no such keys.
- Builder.Entry: an absent `size` is taken as 0. For a blob, the code adds the
  raw `item.size` to its parent.
- Text.Lower: the model lowers ASCII letters only, while `toLowerCase` lowers
  every Unicode letter. A query or name with non-ASCII capitals can match
  on the page but miss in the model.
- Input.FetchErrorInjective: it does not compare the 404 or 403 messages
  with the numbered messages. Those texts differ in their first characters.
- App.RepoDiagram.SetMaxDepth: `parseInt` of the selected option is taken as
  an integer parameter. A non-numeric option (NaN) is not modelled.
- App.RepoDiagram.LoadRepo: this models the code with both findings below
  corrected. As written, `render` throws inside the `try` block after
  `repoData` and `expanded` are set. The status then shows the reference
  error and the statistics are not updated.
- App.LoadTree: it wraps the corrected `Builder.BuildTree`, not
  `Builder.BuildTreeAsWritten`. Its promise that a GitHub listing always
  loads holds for the corrected build only. As written, any listing with a
  directory entry throws (app.js:168-174 with 185-194).
- App.RepoDiagram.Submit: it models the code with both findings below
  corrected, for the same reasons as `LoadRepo`. As written, a directory
  entry makes the build throw. `render` also throws at app.js:294 after
  app.js:86-87 have replaced `repoData` and `expanded`, so the previous
  state is not kept and the status shows the reference error.
- App.RepoDiagram.Load: it builds with the corrected `Builder.BuildTree`,
  not with `Builder.BuildTreeAsWritten`. It therefore reaches the statistics
  for listings with directory entries, where the page throws.
- App.RepoDiagram.Install: it installs the tree of the corrected
  `Builder.BuildTree`, for the same reason as `Load`.
- App.RepoDiagram.Render: it draws connectors with the corrected
  `Connections.DrawConnections`. As written, the first connector throws, so
  the page never shows a line, and no box is drawn either: `drawConnections`
  runs before the box loop (app.js:215 against 218-226). With only the root
  expanded, that is every load of a non-empty repository. `Connections.DrawConnectionsAsWritten` models
  that outcome.
- The loading flag, the empty-state panel and the statistics bar's
  visibility: these are presentation only.
- `Expansion.ExpandTwice` and `Layout.RowExample` hold without proof steps.

## Findings

| source | as written | input that shows it | evidently intended | confidence | as-written member | corrected member |
|---|---|---|---|---|---|---|
| app.js:168-194 | an entry of type 'tree' becomes a node without `children`; `calculateSize` then iterates that missing list and throws, and a later entry inside it cannot be attached | any listing with a directory entry, e.g. `[{path: "src", type: "tree"}]` | directory entries get an empty children list, so any GitHub listing builds | not executed | Builder.BuildTreeAsWritten | Builder.BuildTree |
| app.js:294-296 | `drawConnections` reads `nodeWidth`, which is a local of `render` and not in scope, so the first connector throws a ReferenceError | the layout unit-test tree with the root expanded: two connectors are due | the connector uses the box width `render` lays out with (180) | not executed | Connections.ExampleConnections | Connections.EdgeToParent |
