/**
 * `Notion`: the page builder whose configuration comes from the framework's
 * parameter bag when `createPage` runs; only the relative URL is set on the
 * object.
 */
module Service {
  import opened Wrappers
  import opened Wire
  import opened OrderedMap
  import opened Properties
  import opened PageRequest

  /** The values `createPage` reads from the parameter bag. */
  datatype Parameters = Parameters(apiUrl: string, apiVersion: string, apiKey: string, apiDatabaseId: string)

  class Notion {
    var urlApi: Option<string>
    /** `_data['properties']`: the declared fragments in call order (null is the empty list). */
    var properties: seq<(string, Json)>
    /** `_data['children']`: null, and never assigned. */
    var children: Option<seq<Json>>

    ghost predicate Valid()
      reads this
    {
      children == None && WellShaped(properties)
    }

    constructor ()
      ensures Valid() && urlApi == None && properties == []
    {
      urlApi, properties, children := None, [], None;
    }

    method SetUrlApi(url: string)
      requires Valid()
      modifies this`urlApi
      ensures Valid() && urlApi == Some(url)
    {
      urlApi := Some(url);
    }
    method SetTitle(title: string)
      requires Valid()
      modifies this`properties
      ensures Valid()
      ensures properties == old(properties) + [("Name", Single("title", TextBlock(title)))]
    {
      properties := properties + [("Name", Encode(Title(title)))];
    }

    method SetText(name: string, value: string)
      requires Valid()
      modifies this`properties
      ensures Valid()
      ensures properties == old(properties) + [(name, Single("rich_text", TextBlock(value)))]
    {
      properties := properties + [(name, Encode(RichText(value)))];
    }

    method SetNumber(name: string, value: int)
      requires Valid()
      modifies this`properties
      ensures Valid()
      ensures properties == old(properties) + [(name, Single("number", JInt(value)))]
    {
      properties := properties + [(name, Encode(Number(value)))];
    }

    method SetSelect(name: string, value: string)
      requires Valid()
      modifies this`properties
      ensures Valid()
      ensures properties == old(properties) + [(name, Single("select", Single("name", JString(value))))]
    {
      properties := properties + [(name, Encode(Select(value)))];
    }

    method SetUrl(name: string, value: string)
      requires Valid()
      modifies this`properties
      ensures Valid()
      ensures properties == old(properties) + [(name, Single("url", JString(value)))]
    {
      properties := properties + [(name, Encode(Url(value)))];
    }

    method SetEmail(name: string, value: string)
      requires Valid()
      modifies this`properties
      ensures Valid()
      ensures properties == old(properties) + [(name, Single("email", JString(value)))]
    {
      properties := properties + [(name, Encode(Email(value)))];
    }

    method SetCheckbox(name: string, value: bool)
      requires Valid()
      modifies this`properties
      ensures Valid()
      ensures properties == old(properties) + [(name, Single("checkbox", JBool(value)))]
    {
      properties := properties + [(name, Encode(Checkbox(value)))];
    }

    method SetMultiSelect(name: string, value: seq<Json>)
      requires Valid()
      modifies this`properties
      ensures Valid()
      ensures properties == old(properties) + [(name, Single("multi_select", JArray(value)))]
    {
      properties := properties + [(name, Encode(MultiSelect(value)))];
    }

    /**
     * Builds the request `createPage` sends with the configuration read from
     * the parameter bag; `status` is the status code the HTTP client reports
     * for it, and `ok` is the method's return value.
     */
    method CreatePage(params: Parameters, status: int) returns (request: Request, ok: bool)
      requires Valid()
      ensures request.verb == "POST"
      ensures request.url == params.apiUrl + OrEmpty(urlApi)
      ensures request.headers == Headers(AcceptJson, Some(params.apiVersion), "Bearer " + params.apiKey)
      ensures request.body.databaseId == Some(params.apiDatabaseId)
      ensures request.body.properties == Flattened(properties)
      ensures WellShaped(request.body.properties)
      ensures request.body.children == []
      ensures ok <==> status == 200
    {
      var apiUrl, apiVersion, apiKey, apiDatabaseId := params.apiUrl, params.apiVersion, params.apiKey, params.apiDatabaseId;
      var flat := Flatten(properties);
      FlattenedWellShaped(properties);
      request := Request("POST", apiUrl + OrEmpty(urlApi),
                         Headers(AcceptJson, Some(apiVersion), "Bearer " + apiKey),
                         Body(Some(apiDatabaseId), flat, ChildrenOrEmpty(children)));
      ok := status == 200;
    }
  }
}
