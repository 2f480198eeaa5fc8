/**
 * Clients that drive the two builders through a whole page creation and
 * state the exact request that results, using only the contracts above.
 */
module Scenarios {
  import opened Wrappers
  import opened Wire
  import opened OrderedMap
  import opened PageRequest
  import Services
  import Service

  const ApiBase := "https://api.notion.com/v1"

  /** A title, a number and a checkbox sent through the parameter-bag builder. */
  method ReportPage() returns (request: Request, ok: bool)
    ensures request == Request(
      "POST", ApiBase + "/pages",
      Headers("application/json", Some("2022-06-28"), "Bearer " + "secret_abc"),
      Body(Some("db123"),
           [("Name", Single("title", TextBlock("Report"))),
            ("Count", Single("number", JInt(5))),
            ("Done", Single("checkbox", JBool(true)))],
           []))
    ensures ok
  {
    var notion := new Service.Notion();
    notion.SetUrlApi("/pages");
    notion.SetTitle("Report");
    notion.SetNumber("Count", 5);
    notion.SetCheckbox("Done", true);
    ghost var declared := [("Name", Single("title", TextBlock("Report"))),
                           ("Count", Single("number", JInt(5))),
                           ("Done", Single("checkbox", JBool(true)))];
    assert notion.properties == declared;
    FlattenedThreeDistinct("Name", "Count", "Done", Single("title", TextBlock("Report")),
                           Single("number", JInt(5)), Single("checkbox", JBool(true)));
    assert Flattened(notion.properties) == declared;
    var params := Service.Parameters(ApiBase, "2022-06-28", "secret_abc", "db123");
    request, ok := notion.CreatePage(params, 200);
  }

  /**
   * The same page through the setter-configured builder: the URL repeats the
   * configured one and the key set with SetKeyApi is not sent.
   */
  method ReportPageByService(status: int) returns (request: Request, ok: bool)
    ensures request.url == ApiBase + ApiBase
    ensures request.headers == Headers("application/json", Some("2022-06-28"), "Bearer ")
    ensures request.body == Body(Some("db123"), [("Name", Single("title", TextBlock("Report")))], [])
    ensures ok <==> status == 200
  {
    var service := new Services.NotionService();
    service.SetUrlApi(ApiBase);
    service.SetVersionApi("2022-06-28");
    service.SetKeyApi("secret_abc");
    service.SetDatabaseIdApi("db123");
    service.SetTitle("Report");
    FlattenedDistinct(service.properties);
    request, ok := service.CreatePage(status);
  }

  /** A name declared twice keeps its place and takes the second value; a 201 is a failure. */
  method RepeatedScore() returns (request: Request, ok: bool)
    ensures request.body.properties == [("Score", Single("number", JInt(2))), ("Done", Single("checkbox", JBool(false)))]
    ensures !ok
  {
    var notion := new Service.Notion();
    notion.SetNumber("Score", 1);
    notion.SetCheckbox("Done", false);
    notion.SetNumber("Score", 2);
    assert notion.properties == [("Score", Single("number", JInt(1))), ("Done", Single("checkbox", JBool(false))),
                                 ("Score", Single("number", JInt(2)))];
    FlattenedRepeated("Score", "Done", Single("number", JInt(1)), Single("checkbox", JBool(false)),
                      Single("number", JInt(2)));
    assert Flattened(notion.properties) == [("Score", Single("number", JInt(2))), ("Done", Single("checkbox", JBool(false)))];
    request, ok := notion.CreatePage(Service.Parameters("", "", "", ""), 201);
  }

  /** Three distinct names flatten to themselves, in order. */
  lemma FlattenedThreeDistinct<K, V>(a: K, b: K, c: K, x: V, y: V, z: V)
    requires a != b && b != c && a != c
    ensures Flattened([(a, x), (b, y), (c, z)]) == [(a, x), (b, y), (c, z)]
  {
    assert Keys([(a, x), (b, y), (c, z)]) == [a, b, c];
    FlattenedDistinct([(a, x), (b, y), (c, z)]);
  }

  /** A name declared again after another one takes its new value in its first place. */
  lemma FlattenedRepeated<K, V>(a: K, b: K, x: V, y: V, z: V)
    requires a != b
    ensures Flattened([(a, x), (b, y), (a, z)]) == [(a, z), (b, y)]
  {
    var fs := [(a, x), (b, y), (a, z)];
    assert fs[..2] == [(a, x), (b, y)];
    FlattenedTwoDistinct(a, b, x, y);
    assert Keys([(a, x), (b, y)]) == [a, b];
  }

  /** Two distinct names flatten to themselves, in order. */
  lemma FlattenedTwoDistinct<K, V>(a: K, b: K, x: V, y: V)
    requires a != b
    ensures Flattened([(a, x), (b, y)]) == [(a, x), (b, y)]
  {
    assert Keys([(a, x), (b, y)]) == [a, b];
    FlattenedDistinct([(a, x), (b, y)]);
  }
}
