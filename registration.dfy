/**
 * What the DSL registers with the HTML renderer builder: attribute providers
 * that filter on a node's exact class, and node renderers that declare a set
 * of node types.
 */
module Registration {
  import opened Nodes

  /** The receiver of an attribute block: the node, the HTML tag and the tag's attributes. */
  datatype CustomAttributes = CustomAttributes(node: nat, tag: string, attrs: map<string, string>)

  /** A caller's attribute block, given as the attribute map it leaves behind. */
  type AttributeBlock = CustomAttributes -> map<string, string>

  /** A caller's render block; what it writes is up to the caller, so it is a tag here. */
  datatype RenderBlock = RenderBlock(id: nat)

  /** The provider that `attributes(vararg clazz, block)` registers. */
  datatype AttributeRule = AttributeRule(classes: seq<NodeClass>, block: AttributeBlock)
  {
    /**
     * The attributes of `tag` on node `n` after this provider: the block's
     * result when the node's exact class is one of `classes`, the untouched
     * map otherwise.
     */
    function Provide(doc: Tree, n: nat, tag: string, attrs: map<string, string>): (r: map<string, string>)
      requires n < |doc|
      ensures doc[n].kind in classes ==> r == block(CustomAttributes(n, tag, attrs))
      ensures doc[n].kind !in classes ==> r == attrs
    {
      if doc[n].kind in classes then block(CustomAttributes(n, tag, attrs)) else attrs
    }
  }

  /** The node renderer a factory registered with `nodeRendererFactory` builds. */
  datatype NodeRendererRule = NodeRendererRule(nodeTypes: set<NodeClass>, block: RenderBlock)

  /** `clazz.map { it.java }.toSet()`: the set of the given classes. */
  function NodeTypes(classes: seq<NodeClass>): (r: set<NodeClass>)
    ensures forall c :: c in r <==> c in classes
    ensures |r| <= |classes|
    decreases |classes|
  {
    if classes == [] then {} else {classes[0]} + NodeTypes(classes[1..])
  }

  /** Naming one class gives exactly that class, as every named helper does. */
  lemma NodeTypesSingleton(c: NodeClass)
    ensures NodeTypes([c]) == {c}
  {
    assert forall x :: x in NodeTypes([c]) <==> x == c;
  }

  /** The set depends only on which classes are named, not on their order or repetition. */
  lemma NodeTypesIgnoresOrder(a: seq<NodeClass>, b: seq<NodeClass>)
    requires forall c :: c in a <==> c in b
    ensures NodeTypes(a) == NodeTypes(b)
  {
  }

  /** Matching is on the exact class: a rule for the abstract `ListBlock` never fires on a list. */
  lemma ExactClassOnly(doc: Tree, n: nat, tag: string, attrs: map<string, string>, block: AttributeBlock)
    requires n < |doc| && doc[n].kind in {BulletList, OrderedList}
    ensures AttributeRule([ListBlock], block).Provide(doc, n, tag, attrs) == attrs
  {
  }

  /** The registration lists of commonmark's `HtmlRenderer.Builder`. */
  class RendererBuilder {
    var attributeProviders: seq<AttributeRule>
    var nodeRenderers: seq<NodeRendererRule>

    constructor ()
      ensures attributeProviders == [] && nodeRenderers == []
    {
      attributeProviders := [];
      nodeRenderers := [];
    }

    method AttributeProviderFactory(rule: AttributeRule)
      modifies this
      ensures attributeProviders == old(attributeProviders) + [rule]
      ensures nodeRenderers == old(nodeRenderers)
    {
      attributeProviders := attributeProviders + [rule];
    }

    method NodeRendererFactory(rule: NodeRendererRule)
      modifies this
      ensures nodeRenderers == old(nodeRenderers) + [rule]
      ensures attributeProviders == old(attributeProviders)
    {
      nodeRenderers := nodeRenderers + [rule];
    }
  }
}
