/**
 * `NotionService`: the page builder configured through setters. The API
 * key is stored by `setKeyApi` in a field (`_apiKey`) other than the one
 * `createPage` reads (`_keyApi`), so the key never reaches the request and
 * the `Authorization` header is always `"Bearer "`; and `createPage` builds
 * its URL from `_urlApi` twice.
 */
module Services {
  import opened Wrappers
  import opened Wire
  import opened OrderedMap
  import opened Properties
  import opened PageRequest

  class NotionService {
    var urlApi: Option<string>
    var versionApi: Option<string>
    /** `_keyApi`: read by createPage, written by no method. */
    var keyApi: Option<string>
    /** `_apiKey`: written by setKeyApi, read by no method. */
    var apiKey: Option<string>
    var databaseIdApi: Option<string>
    /** `_data['properties']`: the declared fragments in call order (null is the empty list). */
    var properties: seq<(string, Json)>
    /** `_data['children']`: null, and never assigned. */
    var children: Option<seq<Json>>

    ghost predicate Valid()
      reads this
    {
      keyApi == None && children == None && WellShaped(properties)
    }

    constructor ()
      ensures Valid()
      ensures urlApi == None && versionApi == None && apiKey == None && databaseIdApi == None
      ensures properties == []
    {
      urlApi, versionApi, keyApi, apiKey, databaseIdApi := None, None, None, None, None;
      properties, children := [], None;
    }

    method SetUrlApi(url: string)
      requires Valid()
      modifies this`urlApi
      ensures Valid() && urlApi == Some(url)
    {
      urlApi := Some(url);
    }

    method SetVersionApi(version: string)
      requires Valid()
      modifies this`versionApi
      ensures Valid() && versionApi == Some(version)
    {
      versionApi := Some(version);
    }

    method SetKeyApi(key: string)
      requires Valid()
      modifies this`apiKey
      ensures Valid() && apiKey == Some(key)
    {
      apiKey := Some(key);
    }

    method SetDatabaseIdApi(databaseId: string)
      requires Valid()
      modifies this`databaseIdApi
      ensures Valid() && databaseIdApi == Some(databaseId)
    {
      databaseIdApi := Some(databaseId);
    }

    method SetTitle(title: string)
      requires Valid()
      modifies this`properties
      ensures Valid()
      ensures properties == old(properties) + [("Name", Single("title", TextBlock(title)))]
    {
      properties := properties + [("Name", Encode(Title(title)))];
    }

    method SetText(name: string, value: string)
      requires Valid()
      modifies this`properties
      ensures Valid()
      ensures properties == old(properties) + [(name, Single("rich_text", TextBlock(value)))]
    {
      properties := properties + [(name, Encode(RichText(value)))];
    }

    method SetNumber(name: string, value: int)
      requires Valid()
      modifies this`properties
      ensures Valid()
      ensures properties == old(properties) + [(name, Single("number", JInt(value)))]
    {
      properties := properties + [(name, Encode(Number(value)))];
    }

    method SetSelect(name: string, value: string)
      requires Valid()
      modifies this`properties
      ensures Valid()
      ensures properties == old(properties) + [(name, Single("select", Single("name", JString(value))))]
    {
      properties := properties + [(name, Encode(Select(value)))];
    }

    method SetUrl(name: string, value: string)
      requires Valid()
      modifies this`properties
      ensures Valid()
      ensures properties == old(properties) + [(name, Single("url", JString(value)))]
    {
      properties := properties + [(name, Encode(Url(value)))];
    }

    method SetEmail(name: string, value: string)
      requires Valid()
      modifies this`properties
      ensures Valid()
      ensures properties == old(properties) + [(name, Single("email", JString(value)))]
    {
      properties := properties + [(name, Encode(Email(value)))];
    }

    method SetCheckbox(name: string, value: bool)
      requires Valid()
      modifies this`properties
      ensures Valid()
      ensures properties == old(properties) + [(name, Single("checkbox", JBool(value)))]
    {
      properties := properties + [(name, Encode(Checkbox(value)))];
    }

    method SetMultiSelect(name: string, value: seq<Json>)
      requires Valid()
      modifies this`properties
      ensures Valid()
      ensures properties == old(properties) + [(name, Single("multi_select", JArray(value)))]
    {
      properties := properties + [(name, Encode(MultiSelect(value)))];
    }

    /**
     * Builds the request `createPage` sends; `status` is the status code the
     * HTTP client reports for it, and `ok` is the method's return value.
     */
    method CreatePage(status: int) returns (request: Request, ok: bool)
      requires Valid()
      ensures request.verb == "POST"
      ensures request.url == OrEmpty(urlApi) + OrEmpty(urlApi)
      ensures request.headers == Headers(AcceptJson, versionApi, "Bearer ")
      ensures request.body.databaseId == databaseIdApi
      ensures request.body.properties == Flattened(properties)
      ensures WellShaped(request.body.properties)
      ensures request.body.children == []
      ensures ok <==> status == 200
    {
      var apiUrl, apiVersion, key, apiDatabaseId := urlApi, versionApi, keyApi, databaseIdApi;
      var flat := Flatten(properties);
      FlattenedWellShaped(properties);
      request := Request("POST", OrEmpty(apiUrl) + OrEmpty(urlApi),
                         Headers(AcceptJson, apiVersion, "Bearer " + OrEmpty(key)),
                         Body(apiDatabaseId, flat, ChildrenOrEmpty(children)));
      ok := status == 200;
    }
  }
}
