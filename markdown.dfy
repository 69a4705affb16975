/**
 * The `Markdown` DSL: registration of visitors, attribute providers and node
 * renderers, and `render`, which derives the extension list, parses, runs the
 * visitors, collects front-matter metadata and renders HTML, in that order.
 */
module MarkdownDsl {
  import opened Wrappers
  import opened Nodes
  import opened Configuration
  import opened Extensions
  import opened Registration
  import opened RenderedResult

  /** A caller's visitor; what it does on each node is up to the caller, so it is a tag here. */
  datatype Visitor = Visitor(id: nat)

  /** The parts of commonmark that `render` calls. */
  datatype Library = Library(
    /** `Parser.builder().extensions(exts).build().parse(md)` */
    parse: (string, seq<Extension>) -> Tree,
    /** the `data` a `YamlFrontMatterVisitor` has collected after visiting the document */
    frontMatter: Tree -> map<string, seq<string>>,
    /** `HtmlRenderer.builder()` with the registered providers and renderers and `exts`, rendering the document */
    renderHtml: (Tree, seq<Extension>, seq<AttributeRule>, seq<NodeRendererRule>) -> string)

  /** One step of `render`, as the library sees it. */
  datatype Event =
    | Parsed(input: string, exts: seq<Extension>, doc: Tree)
    | Accepted(visitor: Visitor, doc: Tree)
    | FrontMatterCollected(doc: Tree)
    | HtmlRendered(doc: Tree, exts: seq<Extension>)

  /** A call made inside the configuration block of `renderMarkdown`. */
  datatype DslCall =
    | ConfigCall(ops: seq<ConfigOp>)
    | VisitorCall(v: Visitor)
    | AttributesCall(classes: seq<NodeClass>, attributeBlock: AttributeBlock)
    | RenderCall(classes: seq<NodeClass>, renderBlock: RenderBlock)
    | HelperCall(nodeClass: NodeClass, renderBlock: RenderBlock)

  /** What a `Markdown` holds once configured. */
  datatype Setup = Setup(
    flags: Flags,
    visitors: seq<Visitor>,
    attributeProviders: seq<AttributeRule>,
    nodeRenderers: seq<NodeRendererRule>)
  {
    /** The state after one more call of the configuration block. */
    function Apply(call: DslCall): Setup {
      match call
      case ConfigCall(ops) => this.(flags := flags.Run(ops))
      case VisitorCall(v) => this.(visitors := visitors + [v])
      case AttributesCall(classes, block) =>
        this.(attributeProviders := attributeProviders + [AttributeRule(classes, block)])
      case RenderCall(classes, block) =>
        this.(nodeRenderers := nodeRenderers + [NodeRendererRule(NodeTypes(classes), block)])
      case HelperCall(c, block) =>
        this.(nodeRenderers := nodeRenderers + [NodeRendererRule({c}, block)])
    }
  }

  /** A fresh `Markdown()`. */
  const Initial := Setup(Default, [], [], [])

  /** The state a configuration block leaves a fresh `Markdown` in. */
  function SetupOf(calls: seq<DslCall>): Setup
    decreases |calls|
  {
    if calls == [] then Initial else SetupOf(calls[..|calls| - 1]).Apply(calls[|calls| - 1])
  }

  /** The visitors that `calls` registers, in the order of the calls. */
  function VisitorsIn(calls: seq<DslCall>): seq<Visitor>
    decreases |calls|
  {
    if calls == [] then []
    else VisitorOf(calls[0]) + VisitorsIn(calls[1..])
  }

  /** The visitor a single statement registers, if it is a `visitor(…)` call. */
  function VisitorOf(call: DslCall): seq<Visitor> {
    if call.VisitorCall? then [call.v] else []
  }

  lemma {:induction false} VisitorsInSnoc(calls: seq<DslCall>, call: DslCall)
    ensures VisitorsIn(calls + [call]) == VisitorsIn(calls) + VisitorOf(call)
    decreases |calls|
  {
    if calls == [] {
      assert [call][1..] == [];
    } else {
      assert (calls + [call])[1..] == calls[1..] + [call];
      VisitorsInSnoc(calls[1..], call);
      assert VisitorOf(calls[0]) + (VisitorsIn(calls[1..]) + VisitorOf(call))
          == (VisitorOf(calls[0]) + VisitorsIn(calls[1..])) + VisitorOf(call);
    }
  }

  /** The visitors run in the order the block registered them, none skipped, none added. */
  lemma {:induction false} SetupVisitors(calls: seq<DslCall>)
    ensures SetupOf(calls).visitors == VisitorsIn(calls)
    decreases |calls|
  {
    if calls != [] {
      var init, last := calls[..|calls| - 1], calls[|calls| - 1];
      assert calls == init + [last];
      SetupVisitors(init);
      VisitorsInSnoc(init, last);
    }
  }

  /** Kotlin's `String.toString()`. */
  function ToStringOf(s: string): string {
    s
  }

  /** `list.map { it.toString() }`: the same strings, same length, same order. */
  function ToStrings(values: seq<string>): (r: seq<string>)
    ensures r == values
    decreases |values|
  {
    if values == [] then [] else [ToStringOf(values[0])] + ToStrings(values[1..])
  }

  /**
   * `vis.data.mapValues { (_, list) -> list.map { it.toString() } }`: the
   * same keys, each with the same list of values in the same order.
   */
  function ToMetadata(data: map<string, seq<string>>): (m: Metadata)
    ensures m == data
  {
    map k | k in data :: ToStrings(data[k])
  }

  /** One `Accepted` event per visitor, in order, each over the whole document. */
  function Accepts(vs: seq<Visitor>, doc: Tree): (r: seq<Event>)
    ensures |r| == |vs| && forall k :: 0 <= k < |vs| ==> r[k] == Accepted(vs[k], doc)
  {
    seq(|vs|, k requires 0 <= k < |vs| => Accepted(vs[k], doc))
  }

  /** The steps of `render(md)` for a `Markdown` in state `s`. */
  function Staging(s: Setup, md: string, lib: Library): seq<Event> {
    var exts := ActiveExtensions(s.flags);
    var doc := lib.parse(md, exts);
    [Parsed(md, exts, doc)] + Accepts(s.visitors, doc)
      + (if s.flags.yamlFrontMatter then [FrontMatterCollected(doc)] else [])
      + [HtmlRendered(doc, exts)]
  }

  /** The result of `render(md)` for a `Markdown` in state `s`. */
  function Outcome(s: Setup, md: string, lib: Library): Rendered {
    var exts := ActiveExtensions(s.flags);
    var doc := lib.parse(md, exts);
    var meta := if s.flags.yamlFrontMatter then Some(ToMetadata(lib.frontMatter(doc))) else None;
    Rendered(lib.renderHtml(doc, exts, s.attributeProviders, s.nodeRenderers), meta)
  }

  /**
   * `render` parses first, then runs every visitor in registration order over
   * the parsed document, then collects metadata if front matter is on, and
   * renders last, with the same extension list as the parser.
   */
  lemma StagingOrder(s: Setup, md: string, lib: Library)
    ensures var t := Staging(s, md, lib);
      var exts := ActiveExtensions(s.flags);
      var doc := lib.parse(md, exts);
      var n := |s.visitors|;
      && |t| == n + 2 + (if s.flags.yamlFrontMatter then 1 else 0)
      && t[0] == Parsed(md, exts, doc)
      && (forall k :: 0 <= k < n ==> t[1 + k] == Accepted(s.visitors[k], doc))
      && (s.flags.yamlFrontMatter ==> t[n + 1] == FrontMatterCollected(doc))
      && t[|t| - 1] == HtmlRendered(doc, exts)
  {
    var exts := ActiveExtensions(s.flags);
    var doc := lib.parse(md, exts);
    var front := [Parsed(md, exts, doc)] + Accepts(s.visitors, doc);
    assert forall k :: 0 <= k < |s.visitors| ==> front[1 + k] == Accepts(s.visitors, doc)[k];
  }

  /** Exactly one parse, at the start; exactly one rendering, at the end; metadata at most once, right after the visitors. */
  lemma StagingOnce(s: Setup, md: string, lib: Library)
    ensures var t := Staging(s, md, lib);
      var n := |s.visitors|;
      && (forall k :: 0 <= k < |t| ==> (t[k].Parsed? <==> k == 0))
      && (forall k :: 0 <= k < |t| ==> (t[k].HtmlRendered? <==> k == |t| - 1))
      && (forall k :: 0 <= k < |t| ==> (t[k].FrontMatterCollected? <==> s.flags.yamlFrontMatter && k == n + 1))
  {
    var t := Staging(s, md, lib);
    var n := |s.visitors|;
    StagingOrder(s, md, lib);
    forall k | 0 <= k < |t|
      ensures t[k].Parsed? <==> k == 0
      ensures t[k].HtmlRendered? <==> k == |t| - 1
      ensures t[k].FrontMatterCollected? <==> s.flags.yamlFrontMatter && k == n + 1
    {
      if 0 < k <= n {
        assert t[1 + (k - 1)].Accepted?;
      }
    }
  }

  /** Metadata is absent exactly when front matter is off; then every lookup is absent. */
  lemma MetadataIffFrontMatter(s: Setup, md: string, lib: Library, key: string)
    ensures Outcome(s, md, lib).metadata.None? <==> !s.flags.yamlFrontMatter
    ensures !s.flags.yamlFrontMatter ==> Outcome(s, md, lib).Get(key).None?
    ensures s.flags.yamlFrontMatter ==>
      var data := lib.frontMatter(lib.parse(md, ActiveExtensions(s.flags)));
      Outcome(s, md, lib).metadata == Some(data)
      && Outcome(s, md, lib).Get(key) == (if key in data then Some(data[key]) else None)
  {
  }

  class Markdown {
    const config: Config
    const renderer: RendererBuilder
    var visitors: seq<Visitor>

    function State(): Setup
      reads this, config, renderer
    {
      Setup(config.Snapshot(), visitors, renderer.attributeProviders, renderer.nodeRenderers)
    }

    constructor ()
      ensures State() == Initial
      ensures fresh(config) && fresh(renderer)
    {
      config := new Config(Default);
      renderer := new RendererBuilder();
      visitors := [];
    }

    /** `config { … }`: runs the block's statements on the configuration. */
    method Configure(ops: seq<ConfigOp>)
      modifies config
      ensures config.Snapshot() == old(config.Snapshot()).Run(ops)
      ensures State() == old(State()).Apply(ConfigCall(ops))
    {
      config.Apply(ops);
    }

    /** `visitor(v)`: appends `v` to the visitors. */
    method AddVisitor(v: Visitor)
      modifies this
      ensures visitors == old(visitors) + [v]
      ensures State() == old(State()).Apply(VisitorCall(v))
    {
      visitors := visitors + [v];
    }

    /** `attributes(vararg clazz, block)`: registers a provider filtering on `clazz`. */
    method Attributes(classes: seq<NodeClass>, block: AttributeBlock)
      modifies renderer
      ensures renderer.attributeProviders == old(renderer.attributeProviders) + [AttributeRule(classes, block)]
      ensures State() == old(State()).Apply(AttributesCall(classes, block))
    {
      renderer.AttributeProviderFactory(AttributeRule(classes, block));
    }

    /** `render(vararg clazz, block)`: registers a renderer whose node types are the given classes. */
    method RenderNodes(classes: seq<NodeClass>, block: RenderBlock)
      modifies renderer
      ensures renderer.nodeRenderers == old(renderer.nodeRenderers) + [NodeRendererRule(NodeTypes(classes), block)]
      ensures State() == old(State()).Apply(RenderCall(classes, block))
    {
      var types := NodeTypes(classes);
      renderer.NodeRendererFactory(NodeRendererRule(types, block));
    }

    /** The private `render<T>` behind every named helper: `paragraph` is `RenderNode(Paragraph, …)`. */
    method RenderNode(c: NodeClass, block: RenderBlock)
      modifies renderer
      ensures renderer.nodeRenderers == old(renderer.nodeRenderers) + [NodeRendererRule({c}, block)]
      ensures State() == old(State()).Apply(HelperCall(c, block))
    {
      renderer.NodeRendererFactory(NodeRendererRule({c}, block));
    }

    /** One call of the configuration block. */
    method Apply(call: DslCall)
      modifies this, config, renderer
      ensures State() == old(State()).Apply(call)
    {
      match call
      case ConfigCall(ops) => Configure(ops);
      case VisitorCall(v) => AddVisitor(v);
      case AttributesCall(classes, block) => Attributes(classes, block);
      case RenderCall(classes, block) => RenderNodes(classes, block);
      case HelperCall(c, block) => RenderNode(c, block);
    }

    /**
     * One `if (config.enable…) add(…)` of the `buildList` in `render`. Stated
     * through `AddIf`, so that each addition is one step for the verifier.
     */
    method AddIfEnabled(exts: seq<Extension>, e: Extension) returns (r: seq<Extension>)
      ensures r == exts + AddIf(config.Snapshot(), e)
    {
      r := exts;
      if config.Snapshot().Enabled(e) {
        r := r + [e];
      }
    }

    /** The `buildList { … }` of `render`: one conditional `add` per flag, in registration order. */
    method BuildExtensions() returns (exts: seq<Extension>)
      ensures exts == ActiveExtensions(config.Snapshot())
    {
      ghost var f := config.Snapshot();
      exts := [];
      ghost var before := exts;
      exts := AddIfEnabled(exts, AutolinkExtension);
      BuiltNext(f, AutolinkExtension, before, exts);
      before := exts;
      exts := AddIfEnabled(exts, StrikethroughExtension);
      BuiltNext(f, StrikethroughExtension, before, exts);
      before := exts;
      exts := AddIfEnabled(exts, TablesExtension);
      BuiltNext(f, TablesExtension, before, exts);
      before := exts;
      exts := AddIfEnabled(exts, FootnotesExtension);
      BuiltNext(f, FootnotesExtension, before, exts);
      before := exts;
      exts := AddIfEnabled(exts, YamlFrontMatterExtension);
      BuiltNext(f, YamlFrontMatterExtension, before, exts);
      before := exts;
      exts := AddIfEnabled(exts, InsExtension);
      BuiltNext(f, InsExtension, before, exts);
      before := exts;
      exts := AddIfEnabled(exts, ImageAttributesExtension);
      BuiltNext(f, ImageAttributesExtension, before, exts);
      before := exts;
      exts := AddIfEnabled(exts, TaskListItemsExtension);
      BuiltNext(f, TaskListItemsExtension, before, exts);
      before := exts;
      exts := AddIfEnabled(exts, HeadingAnchorExtension);
      BuiltNext(f, HeadingAnchorExtension, before, exts);
      BuiltIsActive(f);
    }

    /** `render(md)`: parse, visitors, metadata, HTML, with one extension list for parser and renderer. */
    method Render(md: string, lib: Library) returns (result: Rendered, trace: seq<Event>)
      ensures result == Outcome(State(), md, lib)
      ensures trace == Staging(State(), md, lib)
    {
      var exts := BuildExtensions();
      var doc := lib.parse(md, exts);
      trace := [Parsed(md, exts, doc)];
      for i := 0 to |visitors|
        invariant trace == [Parsed(md, exts, doc)] + Accepts(visitors[..i], doc)
      {
        trace := trace + [Accepted(visitors[i], doc)];
      }
      assert visitors[..|visitors|] == visitors;
      var meta: Option<Metadata> := None;
      if config.enableYamlFrontMatter {
        trace := trace + [FrontMatterCollected(doc)];
        meta := Some(ToMetadata(lib.frontMatter(doc)));
      }
      var html := lib.renderHtml(doc, exts, renderer.attributeProviders, renderer.nodeRenderers);
      trace := trace + [HtmlRendered(doc, exts)];
      result := Rendered(html, meta);
    }
  }

  /** `renderMarkdown(md) { … }`: a fresh `Markdown`, the block's calls in order, then one render. */
  method RenderMarkdown(md: string, calls: seq<DslCall>, lib: Library) returns (result: Rendered, trace: seq<Event>)
    ensures result == Outcome(SetupOf(calls), md, lib)
    ensures trace == Staging(SetupOf(calls), md, lib)
  {
    var m := new Markdown();
    for i := 0 to |calls|
      invariant fresh(m) && fresh(m.config) && fresh(m.renderer)
      invariant m.State() == SetupOf(calls[..i])
    {
      assert calls[..i + 1][..i] == calls[..i];
      m.Apply(calls[i]);
    }
    assert calls[..|calls|] == calls;
    result, trace := m.Render(md, lib);
  }
}
