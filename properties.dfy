/**
 * The eight property kinds a page setter can declare, and the wire shape each
 * one is recorded in. Title and text properties wrap their string in a
 * rich-text list, a select wraps its option in `['name' => ...]`, and the
 * other five kinds carry their value as it was given.
 */
module Properties {
  import opened Wrappers
  import opened Wire

  datatype PropValue =
    | Title(title: string)
    | RichText(text: string)
    | Number(number: int)
    | Select(option: string)
    | Url(url: string)
    | Email(email: string)
    | Checkbox(checked: bool)
    | MultiSelect(options: seq<Json>)
  {
    /** The wire key naming the kind. */
    function Kind(): string {
      match this
      case Title(_) => "title"
      case RichText(_) => "rich_text"
      case Number(_) => "number"
      case Select(_) => "select"
      case Url(_) => "url"
      case Email(_) => "email"
      case Checkbox(_) => "checkbox"
      case MultiSelect(_) => "multi_select"
    }
  }

  /** The wire shape of a property value: a one-entry array keyed by the kind. */
  function Encode(v: PropValue): (j: Json)
    ensures j.JObject? && |j.entries| == 1 && j.entries[0].0 == v.Kind()
    ensures Decode(j) == Some(v)
  {
    match v
    case Title(t) => Single(v.Kind(), TextBlock(t))
    case RichText(t) => Single(v.Kind(), TextBlock(t))
    case Number(n) => Single(v.Kind(), JInt(n))
    case Select(o) => Single(v.Kind(), Single("name", JString(o)))
    case Url(u) => Single(v.Kind(), JString(u))
    case Email(e) => Single(v.Kind(), JString(e))
    case Checkbox(b) => Single(v.Kind(), JBool(b))
    case MultiSelect(os) => Single(v.Kind(), JArray(os))
  }

  /** The string content of a rich-text list `[['text' => ['content' => s]]]`. */
  function TextContent(j: Json): Option<string> {
    if j.JArray? && |j.items| == 1 && j.items[0].JObject? && |j.items[0].entries| == 1 then
      var (key, text) := j.items[0].entries[0];
      if key == "text" && text.JObject? && |text.entries| == 1
         && text.entries[0].0 == "content" && text.entries[0].1.JString?
      then Some(text.entries[0].1.s)
      else None
    else None
  }

  /** Reads a wire shape back as a typed property value; None for any other shape. */
  function Decode(j: Json): Option<PropValue> {
    if j.JObject? && |j.entries| == 1 then
      var (kind, inner) := j.entries[0];
      if kind == "title" then
        (match TextContent(inner) case Some(t) => Some(Title(t)) case None => None)
      else if kind == "rich_text" then
        (match TextContent(inner) case Some(t) => Some(RichText(t)) case None => None)
      else if kind == "number" && inner.JInt? then Some(Number(inner.i))
      else if kind == "select" && inner.JObject? && |inner.entries| == 1
              && inner.entries[0].0 == "name" && inner.entries[0].1.JString? then
        Some(Select(inner.entries[0].1.s))
      else if kind == "url" && inner.JString? then Some(Url(inner.s))
      else if kind == "email" && inner.JString? then Some(Email(inner.s))
      else if kind == "checkbox" && inner.JBool? then Some(Checkbox(inner.b))
      else if kind == "multi_select" && inner.JArray? then Some(MultiSelect(inner.items))
      else None
    else None
  }

  lemma TextContentCanonical(j: Json)
    requires TextContent(j).Some?
    ensures TextBlock(TextContent(j).value) == j
  {
    var text := j.items[0].entries[0].1;
    assert text.entries == [text.entries[0]];
    assert j.items[0].entries == [j.items[0].entries[0]];
    assert j.items == [j.items[0]];
  }

  /**
   * The wire shapes are canonical: a shape that reads back as a value is
   * exactly the encoding of that value. With Encode's own round trip, the
   * recorded shapes and the typed values determine each other.
   */
  lemma EncodeDecode(j: Json)
    requires Decode(j).Some?
    ensures Encode(Decode(j).value) == j
  {
    var inner := j.entries[0].1;
    assert j.entries == [j.entries[0]];
    if Decode(j).value.Title? || Decode(j).value.RichText? {
      TextContentCanonical(inner);
    } else if Decode(j).value.Select? {
      assert inner.entries == [inner.entries[0]];
    }
  }

  /** Every entry of a property list has the wire shape of one of the eight kinds. */
  ghost predicate WellShaped(fs: seq<(string, Json)>) {
    forall f :: f in fs ==> Decode(f.1).Some?
  }
}
