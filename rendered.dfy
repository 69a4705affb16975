/** The result of one render: the HTML and, when front matter is on, its metadata. */
module RenderedResult {
  import opened Wrappers

  type Metadata = map<string, seq<string>>

  datatype Rendered = Rendered(html: string, metadata: Option<Metadata>)
  {
    /** `metadata?.get(key)`: absent when there is no metadata or no such key. */
    function Get(key: string): (r: Option<seq<string>>)
      ensures r.Some? <==> metadata.Some? && key in metadata.value
      ensures r.Some? ==> r.value == metadata.value[key]
    {
      match metadata
      case None => None
      case Some(m) => if key in m then Some(m[key]) else None
    }
  }
}
