/**
 * The commonmark document tree as this layer sees it: every node has an exact
 * runtime class, a first child and a next sibling. Nodes live in an arena
 * (a sequence) and refer to each other by index.
 */
module Nodes {
  import opened Wrappers

  /**
   * The node classes the rendering DSL names, one per helper of `Markdown`.
   * `Block` and `ListBlock` are abstract in commonmark: it never builds a node
   * of exactly that class, so the `block` and `listBlock` helpers and an
   * attribute provider for either class never fire on a parsed document.
   * Arenas here may still hold such nodes.
   */
  datatype NodeClass =
    | Block | Code | Emphasis | HardLineBreak | HtmlInline | Image | Link
    | SoftLineBreak | StrongEmphasis | Text | BlockQuote | Document
    | FencedCodeBlock | Heading | HtmlBlock | IndentedCodeBlock
    | LinkReferenceDefinition | ListBlock | ListItem | Paragraph | ThematicBreak
    | BulletList | OrderedList
    // extension node classes
    | Strikethrough | TableRow | TableBody | TableCell | TableBlock | TableHead
    | FootnoteReference | FootnoteDefinition | Ins | YamlFrontMatterNode
    | YamlFrontMatterBlock | ImageAttributes | TaskListItemMarker

  datatype Node = Node(kind: NodeClass, firstChild: Option<nat>, next: Option<nat>)

  type Tree = seq<Node>

  /**
   * The indices reached from `from` by following `next` links, if the chain
   * ends (a `next` that is absent) within `fuel` nodes and every index is in
   * the arena.
   */
  function Chain(doc: Tree, from: Option<nat>, fuel: nat): (r: Option<seq<nat>>)
    ensures r.Some? ==> |r.value| <= fuel
    ensures r.Some? ==> forall k :: 0 <= k < |r.value| ==> r.value[k] < |doc|
    ensures r == Some([]) <==> from.None?
    decreases fuel
  {
    match from
    case None => Some([])
    case Some(i) =>
      if i < |doc| && 0 < fuel then
        match Chain(doc, doc[i].next, fuel - 1)
        case Some(rest) => Some([i] + rest)
        case None => None
      else None
  }

  /** The direct children of node `n`, in `firstChild`/`next` order. */
  function Children(doc: Tree, n: nat): Option<seq<nat>>
    requires n < |doc|
  {
    Chain(doc, doc[n].firstChild, |doc|)
  }

  /** `s` is the whole sibling chain that starts at `from` and ends with an absent `next`. */
  ghost predicate IsSiblingChain(doc: Tree, from: Option<nat>, s: seq<nat>)
    decreases |s|
  {
    if s == [] then from.None?
    else from == Some(s[0]) && s[0] < |doc| && IsSiblingChain(doc, doc[s[0]].next, s[1..])
  }

  ghost predicate Distinct(s: seq<nat>) {
    forall j, k :: 0 <= j < k < |s| ==> s[j] != s[k]
  }

  /** What the fuelled walk returns is the sibling chain. */
  lemma {:induction false} ChainIsSiblingChain(doc: Tree, from: Option<nat>, fuel: nat)
    requires Chain(doc, from, fuel).Some?
    ensures IsSiblingChain(doc, from, Chain(doc, from, fuel).value)
    decreases fuel
  {
    if from.Some? {
      var s := Chain(doc, from, fuel).value;
      ChainIsSiblingChain(doc, doc[from.value].next, fuel - 1);
      assert s[1..] == Chain(doc, doc[from.value].next, fuel - 1).value;
    }
  }

  /** A node has one `next`, so a start node has at most one finite sibling chain. */
  lemma {:induction false} SiblingChainUnique(doc: Tree, from: Option<nat>, s: seq<nat>, t: seq<nat>)
    requires IsSiblingChain(doc, from, s) && IsSiblingChain(doc, from, t)
    ensures s == t
    decreases |s|
  {
    if s != [] {
      assert t != [];
      SiblingChainUnique(doc, doc[s[0]].next, s[1..], t[1..]);
      assert s == [s[0]] + s[1..] && t == [t[0]] + t[1..];
    }
  }

  lemma {:induction false} SiblingChainSuffix(doc: Tree, from: Option<nat>, s: seq<nat>, j: nat)
    requires IsSiblingChain(doc, from, s) && j < |s|
    ensures IsSiblingChain(doc, Some(s[j]), s[j..])
    decreases j
  {
    if j > 0 {
      SiblingChainSuffix(doc, doc[s[0]].next, s[1..], j - 1);
      assert s[1..][j - 1..] == s[j..];
    }
  }

  /** A finite sibling chain never visits a node twice. */
  lemma SiblingChainDistinct(doc: Tree, from: Option<nat>, s: seq<nat>)
    requires IsSiblingChain(doc, from, s)
    ensures Distinct(s)
  {
    forall j, k | 0 <= j < k < |s| ensures s[j] != s[k] {
      SiblingChainSuffix(doc, from, s, j);
      SiblingChainSuffix(doc, from, s, k);
      assert |s[j..]| != |s[k..]|;
      if s[j] == s[k] {
        SiblingChainUnique(doc, Some(s[j]), s[j..], s[k..]);
      }
    }
  }

  /** Pigeonhole: duplicate-free indices below `n` are at most `n` many. */
  lemma {:induction false} DistinctBelow(s: seq<nat>, n: nat)
    requires Distinct(s) && forall k :: 0 <= k < |s| ==> s[k] < n
    ensures |s| <= n
    decreases n
  {
    if s != [] {
      assert s[0] < n;
      var t := Without(s, n - 1);
      DistinctBelow(t, n - 1);
    }
  }

  /** `s` with the value `x` removed, for a duplicate-free `s`. */
  function Without(s: seq<nat>, x: nat): (t: seq<nat>)
    requires Distinct(s)
    ensures Distinct(t) && |s| <= |t| + 1
    ensures forall k :: 0 <= k < |t| ==> t[k] != x && t[k] in s
  {
    if s == [] then []
    else if s[0] == x then
      assert forall k :: 0 < k < |s| ==> s[k] != x;
      s[1..]
    else
      var rest := Without(s[1..], x);
      assert forall k :: 0 <= k < |rest| ==> rest[k] != s[0];
      [s[0]] + rest
  }

  lemma {:induction false} SiblingChainWithFuel(doc: Tree, from: Option<nat>, s: seq<nat>, fuel: nat)
    requires IsSiblingChain(doc, from, s) && |s| <= fuel
    ensures Chain(doc, from, fuel) == Some(s)
    decreases |s|
  {
    if s != [] {
      SiblingChainWithFuel(doc, doc[s[0]].next, s[1..], fuel - 1);
      assert s == [s[0]] + s[1..];
    }
  }

  /**
   * The walk over the arena succeeds exactly when the sibling chain from
   * `from` is finite: a cycle or a dangling index is the only way it fails.
   */
  lemma ChainDefinedIffFinite(doc: Tree, from: Option<nat>)
    ensures Chain(doc, from, |doc|).Some? <==> exists s :: IsSiblingChain(doc, from, s)
    ensures forall s :: IsSiblingChain(doc, from, s) ==> Chain(doc, from, |doc|) == Some(s)
  {
    if Chain(doc, from, |doc|).Some? {
      ChainIsSiblingChain(doc, from, |doc|);
      var s := Chain(doc, from, |doc|).value;
      assert IsSiblingChain(doc, from, s);
      assert exists s :: IsSiblingChain(doc, from, s);
    }
    if s :| IsSiblingChain(doc, from, s) {
      SiblingChainDistinct(doc, from, s);
      SiblingChainInArena(doc, from, s);
      DistinctBelow(s, |doc|);
      SiblingChainWithFuel(doc, from, s, |doc|);
      assert Chain(doc, from, |doc|).Some?;
    }
    forall s | IsSiblingChain(doc, from, s) ensures Chain(doc, from, |doc|) == Some(s) {
      SiblingChainDistinct(doc, from, s);
      SiblingChainInArena(doc, from, s);
      DistinctBelow(s, |doc|);
      SiblingChainWithFuel(doc, from, s, |doc|);
    }
  }

  lemma {:induction false} SiblingChainInArena(doc: Tree, from: Option<nat>, s: seq<nat>)
    requires IsSiblingChain(doc, from, s)
    ensures forall k :: 0 <= k < |s| ==> s[k] < |doc|
    decreases |s|
  {
    if s != [] {
      SiblingChainInArena(doc, doc[s[0]].next, s[1..]);
      assert forall k :: 0 < k < |s| ==> s[k] == s[1..][k - 1];
    }
  }

  /** The children of a node, when defined, are a duplicate-free sibling chain. */
  lemma ChildrenDistinct(doc: Tree, n: nat)
    requires n < |doc| && Children(doc, n).Some?
    ensures Distinct(Children(doc, n).value)
  {
    ChainIsSiblingChain(doc, doc[n].firstChild, |doc|);
    SiblingChainDistinct(doc, doc[n].firstChild, Children(doc, n).value);
  }
}
