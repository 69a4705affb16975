# markdown-kt in Dafny

A model of markdown-kt, a small Kotlin DSL over the commonmark-java Markdown
library. The DSL does the following:

- It holds a `Config` of nine extension flags, all off by default.
- It collects visitors, attribute providers and custom node renderers in a
  `Markdown` object.
- `render(md)` derives the extension list from the flags. The list has a
  fixed order of its own, which is not the order the flags are declared in.
- `render(md)` then parses with that list, runs every visitor over the
  document, and collects front-matter metadata when the YAML extension is on.
- Last, it renders HTML with the same extension list.
- A custom renderer can hand each of a node's children back to the renderer's
  dispatch with `renderChildren`.
- The result, `Rendered`, offers a `get(key)` lookup into the metadata.

The commonmark library is not part of this model. Its parser, its
front-matter visitor and its HTML renderer are passed to `Render` as the
function fields of a `Library` value. What the DSL asks of the library is
recorded as a trace of `Event`s:

- the parse, with its input and extension list;
- one `Accepted` event per visitor;
- the front-matter collection;
- the HTML rendering, with its extension list.

A document is an arena of nodes. Each node has a class, an optional first
child and an optional next sibling, given as arena indices. Indices may
dangle or form a cycle; `Children` is then `None`, and `ChainDefinedIffFinite`
says exactly when.

Files:

- `wrappers.dfy`: `Option`.
- `nodes.dfy`: node classes, the arena, and the sibling chain with its
  termination argument.
- `config.dfy`: `Config` and its flag values.
- `extensions.dfy`: the extension list of `render`.
- `registration.dfy`: attribute providers and node renderers as the
  renderer builder receives them.
- `custom_renderer.dfy`: `CustomRenderer`, the writer and `renderChildren`.
- `rendered.dfy`: `Rendered`.
- `markdown.dfy`: the `Markdown` class, `render` and `renderMarkdown`.

## Model

| member | source | states |
|---|---|---|
| Configuration.Config.constructor | src/main/kotlin/Config.kt:6-16 | any of the 2^9 flag combinations is accepted and the new object holds exactly that combination |
| Configuration.DefaultDisablesAll | src/main/kotlin/Config.kt:7-15 | the default configuration has every extension off and no flag set |
| Configuration.Config.EnableAllExtensions | src/main/kotlin/Config.kt:17-27 | afterwards all nine flags are on, whatever they were before |
| Configuration.AllEnabledEnablesAll | src/main/kotlin/Config.kt:17-27 | the state after enabling all has every extension on and nine flags set |
| Configuration.EnableAllIdempotent | src/main/kotlin/Config.kt:17-27 | enabling all twice equals enabling it once, and the outcome is the same from any starting state |
| Configuration.RunEndingInEnableAll | src/main/kotlin/Config.kt:17-27 | a configuration block whose last statement enables all leaves every flag on, whatever came earlier |
| Configuration.Flags.WithSpec | src/main/kotlin/Config.kt:6-16 | assigning one flag sets that flag to the value and leaves the other eight unchanged |
| Configuration.Config.Set | src/main/kotlin/Config.kt:7-15 | an assignment to the property of extension `e` changes the configuration to its old value with that one flag replaced |
| Configuration.Config.SetAutolink | src/main/kotlin/Config.kt:7 | the `enableAutolink` setter changes that flag only |
| Configuration.Config.SetStrikethrough | src/main/kotlin/Config.kt:8 | the `enableStrikethrough` setter changes that flag only |
| Configuration.Config.SetTables | src/main/kotlin/Config.kt:9 | the `enableTables` setter changes that flag only |
| Configuration.Config.SetFootnotes | src/main/kotlin/Config.kt:10 | the `enableFootnotes` setter changes that flag only |
| Configuration.Config.SetHeadingAnchors | src/main/kotlin/Config.kt:11 | the `enableHeadingAnchors` setter changes that flag only |
| Configuration.Config.SetIns | src/main/kotlin/Config.kt:12 | the `enableIns` setter changes that flag only |
| Configuration.Config.SetYamlFrontMatter | src/main/kotlin/Config.kt:13 | the `enableYamlFrontMatter` setter changes that flag only |
| Configuration.Config.SetImageAttributes | src/main/kotlin/Config.kt:14 | the `enableImageAttributes` setter changes that flag only |
| Configuration.Config.SetTaskList | src/main/kotlin/Config.kt:15 | the `enableTaskList` setter changes that flag only |
| Configuration.Config.Apply | src/main/kotlin/Markdown.kt:106-108 | running a configuration block's statements in order leaves the flags as the block's fold over the old flags |
| Configuration.RunSnoc | src/main/kotlin/Markdown.kt:106-108 | a block one statement longer is the shorter block followed by that statement |
| Configuration.Flags.Count | src/main/kotlin/Config.kt:6-16 | at most nine flags are set |
| Extensions.Rank | src/main/kotlin/Markdown.kt:60-79 | every extension has a position in the order of `render`'s conditional additions, and the order holds it at that position |
| Extensions.RegistrationOrderComplete | src/main/kotlin/Markdown.kt:60-79 | every extension occurs in the order of the additions |
| Extensions.RegistrationOrderSorted | src/main/kotlin/Markdown.kt:60-79 | the order of the additions lists each extension once, by rank |
| Extensions.ActiveExtensionsSpec | src/main/kotlin/Markdown.kt:60-79 | an extension is in the list iff its flag is set; the list follows the order of the additions and has no duplicates |
| Extensions.ActiveExtensionsLength | src/main/kotlin/Markdown.kt:60-79 | the list is as long as the number of flags set |
| Extensions.AllEnabledList | src/main/kotlin/Markdown.kt:60-79 | with every flag on, the list is Autolink, Strikethrough, Tables, Footnotes, YamlFrontMatter, Ins, ImageAttributes, TaskListItems, HeadingAnchor; this differs from the declaration order in `Config`; HeadingAnchor is last, not fifth |
| Extensions.DefaultList | src/main/kotlin/Markdown.kt:60-79 | with the default configuration, the list is empty |
| Extensions.OrderedListUnique | src/main/kotlin/Markdown.kt:60-79 | two lists that follow the order of the additions and have the same members are equal |
| Extensions.SelectMembers | src/main/kotlin/Markdown.kt:60-79 | filtering an order by the flags keeps exactly its enabled members |
| Extensions.SelectOrdered | src/main/kotlin/Markdown.kt:60-79 | filtering a list that follows the order of the additions gives a list that still follows that order |
| Extensions.SelectLength | src/main/kotlin/Markdown.kt:60-79 | the filtered list is as long as the number of enabled elements of the order |
| Extensions.SelectKeepsAllEnabled | src/main/kotlin/Markdown.kt:60-79 | with every flag on, filtering keeps the whole order |
| Extensions.BuildStep | src/main/kotlin/Markdown.kt:61-78 | one conditional addition extends an ordered list of the enabled extensions of lower rank by the next rank |
| Extensions.BuiltNext | src/main/kotlin/Markdown.kt:61-78 | after the conditional addition of the next extension, the list built so far covers one more rank |
| Extensions.BuiltInvariant | src/main/kotlin/Markdown.kt:61-78 | after k conditional additions, the list is ordered and holds exactly the enabled extensions among the first k |
| Extensions.BuiltIsActive | src/main/kotlin/Markdown.kt:60-79 | after all nine additions, the list built is the extension list |
| Extensions.ActiveExtensions | src/main/kotlin/Markdown.kt:60-79 | the value of the `buildList`: `Select(RegistrationOrder, f)`, the enabled extensions in the order of the additions; `ActiveExtensionsSpec`, `ActiveExtensionsLength` and `OrderedListUnique` characterize it |
| MarkdownDsl.Markdown.AddIfEnabled | src/main/kotlin/Markdown.kt:61-78 | one `if (config.enable…) add(…)`: appends `e` when its flag is set and leaves the list as it was otherwise |
| MarkdownDsl.Markdown.BuildExtensions | src/main/kotlin/Markdown.kt:60-79 | the `buildList` of nine conditional additions returns the extension list of the current flags |
| MarkdownDsl.Markdown.Render | src/main/kotlin/Markdown.kt:59-101 | the result is `Rendered(html, meta)`; `html` is rendered from the parsed document with the registered providers and renderers; the trace is parse, visitors, metadata, render, with the same extension list for parser and renderer |
| MarkdownDsl.Staging | src/main/kotlin/Markdown.kt:80-98 | the calls `render` makes, in order: the parse, one visit per visitor, the metadata collection when front matter is on, the rendering; `StagingOrder` and `StagingOnce` characterize it |
| MarkdownDsl.Outcome | src/main/kotlin/Markdown.kt:87-100 | the `Rendered(html, meta)` that `render` returns: HTML from the parsed document with the registered providers and renderers, metadata only when front matter is on; `MetadataIffFrontMatter` characterizes it |
| MarkdownDsl.StagingOrder | src/main/kotlin/Markdown.kt:80-98 | the parse comes first; then one visit per visitor, in registration order, each over the parsed document; then the metadata when front matter is on; the rendering comes last; parser and renderer get the same extension list |
| MarkdownDsl.StagingOnce | src/main/kotlin/Markdown.kt:80-98 | one render parses exactly once, at the start, and renders exactly once, at the end; metadata is collected at most once, right after the visitors, and exactly when front matter is on |
| MarkdownDsl.MetadataIffFrontMatter | src/main/kotlin/Markdown.kt:87-93 | metadata is absent iff the YAML front-matter flag is off, and then every lookup is absent; when it is on, metadata is the visitor's data and a lookup finds exactly that data's entry |
| MarkdownDsl.ToMetadata | src/main/kotlin/Markdown.kt:90-92 | the conversion keeps the key set, and each value list keeps its length, order and elements |
| MarkdownDsl.ToStringOf | src/main/kotlin/Markdown.kt:91 | `it.toString()` on a `String` is that string |
| MarkdownDsl.ToStrings | src/main/kotlin/Markdown.kt:91 | mapping `toString` over a list of strings gives back the same list |
| MarkdownDsl.Accepts | src/main/kotlin/Markdown.kt:85 | there is one visit per visitor, in order, each over the whole document |
| MarkdownDsl.Markdown.constructor | src/main/kotlin/Markdown.kt:53-57 | a new `Markdown` has the default configuration and no visitors, providers or renderers, in fresh objects |
| MarkdownDsl.Markdown.Configure | src/main/kotlin/Markdown.kt:106-108 | `config { … }` runs the block on the configuration object and changes nothing else |
| MarkdownDsl.Markdown.AddVisitor | src/main/kotlin/Markdown.kt:127-129 | `visitor(v)` appends `v` to the end of the visitors |
| MarkdownDsl.VisitorsInSnoc | src/main/kotlin/Markdown.kt:127-129 | one more statement adds its visitor, if any, at the end |
| MarkdownDsl.SetupVisitors | src/main/kotlin/Markdown.kt:127-129 | after a configuration block, the visitors are exactly the block's `visitor` calls in the order they were made |
| MarkdownDsl.Markdown.Attributes | src/main/kotlin/Markdown.kt:134-145 | `attributes(vararg clazz, block)` appends one provider that filters on `clazz` |
| Registration.AttributeRule.Provide | src/main/kotlin/Markdown.kt:139-143 | the block runs iff the node's exact class is in `clazz`; otherwise the attributes are untouched |
| Registration.ExactClassOnly | src/main/kotlin/Markdown.kt:140 | a provider for `ListBlock` leaves bullet and ordered lists untouched: the match is on the exact runtime class, not on subclasses |
| MarkdownDsl.Markdown.RenderNodes | src/main/kotlin/Markdown.kt:157-171 | `render(vararg clazz, block)` appends one renderer whose node types are the set of the given classes |
| Registration.NodeTypes | src/main/kotlin/Markdown.kt:161 | a class is in `types` iff it was passed, and there are no more types than classes passed |
| Registration.NodeTypesIgnoresOrder | src/main/kotlin/Markdown.kt:161 | the node types depend only on which classes are passed, not on their order or repetition |
| Registration.NodeTypesSingleton | src/main/kotlin/Markdown.kt:178 | naming one class gives exactly the singleton set of that class |
| MarkdownDsl.Markdown.RenderNode | src/main/kotlin/Markdown.kt:173-426 | the private `render<T>`, behind each named helper such as `paragraph`: appends one renderer whose node types are exactly the singleton set of the helper's class |
| Registration.RendererBuilder.constructor | src/main/kotlin/Markdown.kt:56 | a fresh renderer builder has nothing registered |
| Registration.RendererBuilder.AttributeProviderFactory | src/main/kotlin/Markdown.kt:138 | registering a provider appends it and leaves the node renderers alone |
| Registration.RendererBuilder.NodeRendererFactory | src/main/kotlin/Markdown.kt:162 | registering a node renderer appends it and leaves the providers alone |
| MarkdownDsl.Markdown.Apply | src/main/kotlin/Markdown.kt:106-185 | each DSL call changes the state exactly as the matching registration does |
| MarkdownDsl.SetupOf | src/main/kotlin/Markdown.kt:34-36 | `Markdown().apply(block)`: the state a fresh `Markdown` is in after the block's calls, in order; `SetupVisitors` characterizes its visitors |
| MarkdownDsl.RenderMarkdown | src/main/kotlin/Markdown.kt:34-38 | a fresh `Markdown`, then the block's calls in order, then exactly one render of that state |
| Nodes.Chain | src/main/kotlin/CustomRenderer.kt:12-16 | following `next` from a node gives a list of arena indices no longer than its bound; the list is empty iff there is no first node |
| Nodes.Children | src/main/kotlin/CustomRenderer.kt:12-16 | the `firstChild`/`next` chain of a node, bounded by the arena size; `ChainDefinedIffFinite` and `ChildrenDistinct` characterize it |
| Nodes.ChainIsSiblingChain | src/main/kotlin/CustomRenderer.kt:12-16 | the list found is the `firstChild`/`next` chain of the arena |
| Nodes.SiblingChainUnique | src/main/kotlin/CustomRenderer.kt:12-16 | a node has at most one finite sibling chain |
| Nodes.SiblingChainDistinct | src/main/kotlin/CustomRenderer.kt:13-16 | a finite sibling chain never repeats a node |
| Nodes.ChainDefinedIffFinite | src/main/kotlin/CustomRenderer.kt:13-16 | the children are defined iff the sibling chain is finite and acyclic; the list is then that chain |
| Nodes.ChildrenDistinct | src/main/kotlin/CustomRenderer.kt:12-16 | the children of a node are pairwise distinct |
| CustomRendering.CustomRenderer.constructor | src/main/kotlin/CustomRenderer.kt:8-9 | `html` is the context's own writer |
| CustomRendering.CustomRenderer.RenderChildrenOf | src/main/kotlin/CustomRenderer.kt:11-17 | every direct child is handed to the context's `render` once, in `firstChild`/`next` order; nothing else reaches the writer; the loop ends for a finite chain |
| CustomRendering.CustomRenderer.RenderChildren | src/main/kotlin/CustomRenderer.kt:11 | without an argument, the children of the node being rendered are rendered |
| CustomRendering.NoFirstChildRendersNothing | src/main/kotlin/CustomRenderer.kt:12-13 | a node without a first child renders nothing |
| CustomRendering.RenderedChildrenOnce | src/main/kotlin/CustomRenderer.kt:11-17 | the rendered fragments follow the node's sibling chain and name no child twice |
| CustomRendering.RenderedAll | src/main/kotlin/CustomRenderer.kt:14 | one `ChildOutput` fragment per node, in order |
| CustomRendering.NodeRendererContext.Render | src/main/kotlin/CustomRenderer.kt:14 | the context's `render` appends the node's rendering to the shared writer |
| CustomRendering.HtmlWriter.WriteTag | src/test/kotlin/MarkdownTest.kt:22 | `html.tag(name)` appends the tag to the writer |
| CustomRendering.HtmlWriter.WriteLine | src/test/kotlin/MarkdownTest.kt:23 | each `html.line()` call is recorded as one `Line` fragment; whether commonmark then writes a newline is not modelled |
| CustomRendering.WrapInDiv | src/test/kotlin/MarkdownTest.kt:26-30 | the paragraph renderer of the tests emits `div`, then the children in order, then `/div`, all on the one writer |
| RenderedResult.Rendered.Get | src/main/kotlin/Rendered.kt:7 | a lookup is present iff there is metadata and it holds the key, and then it is exactly that key's list; being a function of a value, it changes neither `html` nor `metadata` |

## Left out

- Parsing, HTML generation, YAML front-matter parsing and `HtmlWriter` formatting belong to commonmark-java. The model takes them as the functions of a `Library` value, or as the sequence of fragments written.
- The node traversal inside a visitor's `accept` belongs to the library. A visit is one `Accepted` event over the whole document. What a visitor does to caller state is not modelled. Exceptions are not modelled either: a visitor, a render block or an attribute block that throws would stop `render` (Markdown.kt:85, 98) or the loop of `renderChildren` (CustomRenderer.kt:13-16), but the model's `RenderChildrenOf` always completes and an `AttributeBlock` is a total function.
- The precedence between node renderers for one node type is decided inside `HtmlRenderer.Builder`. The model only records the registered renderers in order and does not say which wins. The same holds for how several attribute providers compose.
- `parser { }` and `renderer { }` (Markdown.kt:113-122) hand raw builder access to the library. They are not modelled.
- `render` hands the extension list to the shared parser and renderer builders. The model passes the list with each call and does not model whether the builders keep extensions across several `render` calls.
- Kotlin reflection, `KClass` and `java` class mapping, `@DslMarker` and reified generics are not modelled. Node classes are the tags of `NodeClass`, one per named helper.
- The 36 named helpers (Markdown.kt:187-426) are each one call of `RenderNode` with the helper's class. They are not separate members. The inline `attributes<T>` (Markdown.kt:150-152) is `Attributes` with a one-class list.
- `CustomAttributes` is a record passed to the attribute block. The block is modelled as the attribute map it leaves behind, not as in-place mutation of that map.
- The configuration block and render blocks are Kotlin lambdas, and a visitor is a commonmark `Visitor` object. The model represents all three as data:
  - the configuration block's statements are a list of `ConfigOp`;
  - a visitor is a tag;
  - a render block is a tag;
  - only the test's `div` paragraph renderer is written out, as `WrapInDiv`.
- Nodes.Chain: it takes a fuel bound, and `Children` uses the arena size as that bound. `ChainDefinedIffFinite` proves that the bound cuts off exactly the cyclic or out-of-arena chains.
- Visitors and render blocks are assumed to leave the document unchanged. In Markdown.kt:85-98 the same mutable document goes to every visitor, then to the front-matter visitor and to the renderer, so a visitor that edits the tree changes the metadata and the HTML. The model passes the parsed tree unchanged to `FrontMatterCollected` and `HtmlRendered`. Likewise CustomRenderer.kt:15 reads `child.next` after `ctx.render(child)`; `RenderChildrenOf` reads a fixed `ctx.doc`, so a render block that moves its node is not modelled.
