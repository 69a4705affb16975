/**
 * The receiver of a custom render block: the node being rendered, the
 * renderer's context, the context's HTML writer, and `renderChildren`.
 */
module CustomRendering {
  import opened Wrappers
  import opened Nodes

  /**
   * One piece of output: a tag, one `html.line()` call, or whatever the renderer's
   * dispatch writes for a node (a built-in or a custom renderer).
   */
  datatype Fragment = Tag(name: string) | Line | ChildOutput(node: nat)

  /** The fragments that rendering `ids` in order emits. */
  function RenderedAll(ids: seq<nat>): (r: seq<Fragment>)
    ensures |r| == |ids| && forall k :: 0 <= k < |ids| ==> r[k] == ChildOutput(ids[k])
  {
    seq(|ids|, k requires 0 <= k < |ids| => ChildOutput(ids[k]))
  }

  /** commonmark's `HtmlWriter`, reduced to the sequence of what was written to it. */
  class HtmlWriter {
    var output: seq<Fragment>

    constructor ()
      ensures output == []
    {
      output := [];
    }

    method WriteTag(name: string)
      modifies this
      ensures output == old(output) + [Tag(name)]
    {
      output := output + [Tag(name)];
    }

    method WriteLine()
      modifies this
      ensures output == old(output) + [Line]
    {
      output := output + [Line];
    }
  }

  /** commonmark's `HtmlNodeRendererContext`: the document, its writer, and `render(node)`. */
  class NodeRendererContext {
    const doc: Tree
    const writer: HtmlWriter

    constructor (doc: Tree, writer: HtmlWriter)
      ensures this.doc == doc && this.writer == writer
    {
      this.doc := doc;
      this.writer := writer;
    }

    /** Renders node `n` through the renderer's dispatch; its output goes to `writer`. */
    method Render(n: nat)
      modifies writer
      ensures writer.output == old(writer.output) + [ChildOutput(n)]
    {
      writer.output := writer.output + [ChildOutput(n)];
    }
  }

  class CustomRenderer {
    const node: nat
    const ctx: NodeRendererContext
    /** The context's own writer, so custom markup and child output share one sink. */
    const html: HtmlWriter := ctx.writer

    constructor (node: nat, ctx: NodeRendererContext)
      ensures this.node == node && this.ctx == ctx && html == ctx.writer
    {
      this.node := node;
      this.ctx := ctx;
    }

    /**
     * Hands each direct child of `n` to the context's `render`, once each,
     * in `firstChild`/`next` order. The sibling chain must be finite.
     */
    method RenderChildrenOf(n: nat)
      requires n < |ctx.doc| && Children(ctx.doc, n).Some?
      modifies html
      ensures html.output == old(html.output) + RenderedAll(Children(ctx.doc, n).value)
    {
      var child := ctx.doc[n].firstChild;
      ghost var fuel: nat := |ctx.doc|;
      ghost var done: seq<nat> := [];
      while child.Some?
        invariant Chain(ctx.doc, child, fuel).Some?
        invariant Children(ctx.doc, n).value == done + Chain(ctx.doc, child, fuel).value
        invariant html.output == old(html.output) + RenderedAll(done)
        decreases fuel
      {
        var c := child.value;
        ctx.Render(c);
        done := done + [c];
        child := ctx.doc[c].next;
        fuel := fuel - 1;
      }
    }

    /** `renderChildren()` with its default argument, the node being rendered. */
    method RenderChildren()
      requires node < |ctx.doc| && Children(ctx.doc, node).Some?
      modifies html
      ensures html.output == old(html.output) + RenderedAll(Children(ctx.doc, node).value)
    {
      RenderChildrenOf(node);
    }
  }

  /** A node without a first child has nothing to render. */
  lemma NoFirstChildRendersNothing(doc: Tree, n: nat)
    requires n < |doc| && doc[n].firstChild.None?
    ensures Children(doc, n) == Some([]) && RenderedAll([]) == []
  {
  }

  /**
   * Each child is rendered exactly once: the fragments name the arena's
   * sibling chain from the first child, and no node twice.
   */
  lemma RenderedChildrenOnce(doc: Tree, n: nat)
    requires n < |doc| && Children(doc, n).Some?
    ensures IsSiblingChain(doc, doc[n].firstChild, Children(doc, n).value)
    ensures forall j, k :: 0 <= j < k < |RenderedAll(Children(doc, n).value)| ==>
      RenderedAll(Children(doc, n).value)[j] != RenderedAll(Children(doc, n).value)[k]
  {
    ChainIsSiblingChain(doc, doc[n].firstChild, |doc|);
    ChildrenDistinct(doc, n);
  }

  /**
   * A paragraph renderer that wraps the child output in a `div`:
   * the child fragments land between the two tags on the same writer.
   */
  method WrapInDiv(r: CustomRenderer)
    requires r.node < |r.ctx.doc| && Children(r.ctx.doc, r.node).Some?
    modifies r.html
    ensures r.html.output == old(r.html.output) + [Tag("div")]
      + RenderedAll(Children(r.ctx.doc, r.node).value) + [Tag("/div")]
  {
    r.html.WriteTag("div");
    r.RenderChildren();
    r.html.WriteTag("/div");
  }
}
