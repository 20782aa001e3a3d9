/** The set of expanded node identifiers and the operations on it:
    `toggleDirectory` (app.js:390-398) and the set `expandAll`
    (app.js:400-409) adds. */
module Expansion {
  import opened Tree

  /** `toggleDirectory(node)`: removes the node's identifier if present,
      adds it otherwise. */
  function Toggle(expanded: set<string>, n: Node): (r: set<string>)
    ensures Id(n) in r <==> Id(n) !in expanded
    ensures forall x | x != Id(n) :: x in r <==> x in expanded
  {
    if Id(n) in expanded then expanded - {Id(n)} else expanded + {Id(n)}
  }

  /** Toggling the same node twice restores the set. */
  lemma ToggleTwice(expanded: set<string>, n: Node)
    ensures Toggle(Toggle(expanded, n), n) == expanded
  {
  }

  /** Expanding a subtree a second time adds nothing: `expandAll` is
      idempotent. */
  lemma ExpandTwice(expanded: set<string>, n: Node)
    ensures expanded + DirIds(n) + DirIds(n) == expanded + DirIds(n)
    ensures Id(n) in expanded + DirIds(n)
  {
  }

  /** A node of type 'tree', with or without a children array. */
  predicate IsTree(n: Node)
  {
    n.Dir? || n.BareDir?
  }

  /** The identifiers `expandAll(n)` adds: the node's own and, through
      every child of type 'tree', those of its subtree. */
  function DirIds(n: Node): set<string>
  {
    {Id(n)} + if n.Dir? then DirIdsOf(n.children) else {}
  }

  function DirIdsOf(cs: seq<Node>): set<string>
  {
    if cs == [] then {}
    else (if IsTree(cs[0]) then DirIds(cs[0]) else {}) + DirIdsOf(cs[1..])
  }

  /** The identifiers of a prefix of the children grow child by child. */
  lemma DirIdsOfSnoc(cs: seq<Node>, i: nat)
    requires i < |cs|
    ensures DirIdsOf(cs[..i + 1]) == DirIdsOf(cs[..i]) + if IsTree(cs[i]) then DirIds(cs[i]) else {}
  {
    assert cs[..i + 1] == cs[..i] + [cs[i]];
    DirIdsOfAppend(cs[..i], [cs[i]]);
    assert [cs[i]][1..] == [];
  }

  lemma {:induction false} DirIdsOfAppend(a: seq<Node>, b: seq<Node>)
    ensures DirIdsOf(a + b) == DirIdsOf(a) + DirIdsOf(b)
  {
    if a == [] {
      assert a + b == b;
    } else {
      assert (a + b)[1..] == a[1..] + b;
      DirIdsOfAppend(a[1..], b);
    }
  }

  /** The nodes below `n`, `n` included, in pre-order. */
  function Nodes(n: Node): seq<Node>
  {
    [n] + if n.Dir? then NodesOf(n.children) else []
  }

  function NodesOf(cs: seq<Node>): seq<Node>
  {
    if cs == [] then [] else Nodes(cs[0]) + NodesOf(cs[1..])
  }

  /** `expandAll(n)` adds the identifier of `n` and of every directory
      below it, and nothing else: a file's identifier is added only when a
      directory has the same one. */
  lemma {:induction false} DirIdsAreDirectories(n: Node)
    ensures DirIds(n) == {Id(n)} + set m | m in Nodes(n)[1..] && IsTree(m) :: Id(m)
  {
    if n.Dir? {
      DirIdsOfAreDirectories(n.children);
      assert Nodes(n)[1..] == NodesOf(n.children);
    } else {
      assert Nodes(n)[1..] == [];
    }
  }

  lemma {:induction false} DirIdsOfAreDirectories(cs: seq<Node>)
    ensures DirIdsOf(cs) == set m | m in NodesOf(cs) && IsTree(m) :: Id(m)
  {
    if cs != [] {
      DirIdsOfAreDirectories(cs[1..]);
      var c := cs[0];
      DirIdsAreDirectories(c);
      assert NodesOf(cs) == [c] + Nodes(c)[1..] + NodesOf(cs[1..]);
      if !c.Dir? {
        assert Nodes(c)[1..] == [];
      }
    }
  }
}
