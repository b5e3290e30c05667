/**
  The remote state gateway: composing the share URL from the pointer the
  state server returns, and the decision whether a parsed URL query names a
  stored state to fetch. The HTTP calls themselves are function parameters.
 */
module Gateway {

  import opened StateDocument

  /** The state server that stores published documents. */
  const FlywireStateUrl := "https://globalv1.flywire-daf.com/nglstate"

  /** The viewer host every share URL points at. */
  const FlywireHostUrl := "https://ngl.flywire.ai"

  const JsonUrlPrefix := FlywireHostUrl + "/?json_url="

  /**
    `flywiredict2url`: publish the document (the abstract `publish` stands for
    the authenticated POST to `FlywireStateUrl + "/post"` and returns the
    server's pointer) and embed the
    pointer as the `json_url` query parameter on the viewer host.
   */
  function FlywireDictToUrl(doc: Document, publish: Document -> string): (url: string)
    ensures |url| == |JsonUrlPrefix| + |publish(doc)|
    ensures url[..|JsonUrlPrefix|] == JsonUrlPrefix
    ensures url[|JsonUrlPrefix|..] == publish(doc)
  {
    JsonUrlPrefix + publish(doc)
  }

  /** What `flywireurl2dict` returns: a fetched document, or the query itself. */
  datatype Decoded = Fetched(doc: Document) | QueryState(query: map<string, seq<string>>)

  /**
    `flywireurl2dict` after query parsing: a `json_url` parameter makes it fetch
    the first value (the abstract `fetch` stands for the authenticated GET);
    otherwise the parsed query is returned as the state.
   */
  function FlywireUrlToDict(query: map<string, seq<string>>, fetch: string -> Document): (r: Decoded)
    requires "json_url" in query ==> query["json_url"] != []
    ensures r.Fetched? <==> "json_url" in query
    ensures r.Fetched? ==> r.doc == fetch(query["json_url"][0])
    ensures r.QueryState? ==> r.query == query
  {
    if "json_url" in query then Fetched(fetch(query["json_url"][0])) else QueryState(query)
  }

  /**
    Publishing then decoding: the `json_url` value of a share URL is the
    published pointer, so a store that returns what was posted under it gives
    back the very document that was published. The query map is built here
    from the URL's suffix; `parse_qs` yields that same map only for pointers
    it does not alter: the URL is composed without escaping, so a pointer
    holding `&`, `+`, `%` or `#` would be split or decoded differently.
   */
  lemma PublishThenDecode(doc: Document, publish: Document -> string, fetch: string -> Document)
    requires fetch(publish(doc)) == doc
    ensures FlywireUrlToDict(map["json_url" := [FlywireDictToUrl(doc, publish)[|JsonUrlPrefix|..]]], fetch) == Fetched(doc)
  {
  }
}
