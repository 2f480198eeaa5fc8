/**
 * What `createPage` hands to the HTTP client: the method, the URL, the three
 * headers and the body with its parent, properties and children parts.
 */
module PageRequest {
  import opened Wrappers
  import opened Wire
  import opened OrderedMap
  import opened Properties

  /** `Notion-Version` is null when no version was configured. */
  datatype Headers = Headers(accept: string, notionVersion: Option<string>, authorization: string)

  /** `databaseId` is null when no database id was configured. */
  datatype Body = Body(databaseId: Option<string>, properties: seq<(string, Json)>, children: seq<Json>)

  datatype Request = Request(verb: string, url: string, headers: Headers, body: Body)

  const AcceptJson := "application/json"

  /** PHP string concatenation reads null as the empty string. */
  function OrEmpty(s: Option<string>): string {
    match s
    case Some(x) => x
    case None => ""
  }

  /** `$children ? $children : []`: null and the empty list are both falsy. */
  function ChildrenOrEmpty(children: Option<seq<Json>>): (r: seq<Json>)
    ensures r == [] <==> children == None || children == Some([])
    ensures children.Some? ==> r == children.value
  {
    match children
    case Some(c) => c
    case None => []
  }

  /** The flattening loop of `createPage`. */
  method Flatten(fragments: seq<(string, Json)>) returns (properties: seq<(string, Json)>)
    ensures properties == Flattened(fragments)
  {
    properties := [];
    if |fragments| >= 1 {
      for i := 0 to |fragments|
        invariant properties == Flattened(fragments[..i])
      {
        assert fragments[..i + 1][..i] == fragments[..i];
        properties := Put(properties, fragments[i].0, fragments[i].1);
      }
      assert fragments[..|fragments|] == fragments;
    }
  }

  /** Flattening well-shaped fragments yields a well-shaped property map. */
  lemma FlattenedWellShaped(fs: seq<(string, Json)>)
    requires WellShaped(fs)
    ensures WellShaped(Flattened(fs))
  {
    FlattenedEntriesDeclared(fs);
  }
}
