/** Option, as the model uses it for PHP's `null`. */
module Wrappers {
  datatype Option<+T> = None | Some(value: T)
}

/**
 * The values a page request is built from before it is handed to the JSON
 * encoder: PHP scalars, lists, and string-keyed associative arrays. An
 * associative array keeps its insertion order, so it is an ordered list of
 * entries here.
 */
module Wire {
  datatype Json =
    | JBool(b: bool)
    | JInt(i: int)
    | JString(s: string)
    | JArray(items: seq<Json>)
    | JObject(entries: seq<(string, Json)>)

  /** The one-entry associative array `[key => value]`. */
  function Single(key: string, value: Json): Json {
    JObject([(key, value)])
  }

  /** The rich-text list `[['text' => ['content' => s]]]` used by title and text properties. */
  function TextBlock(s: string): Json {
    JArray([Single("text", Single("content", JString(s)))])
  }
}
