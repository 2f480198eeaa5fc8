# Notion page builder, modelled in Dafny

The PHP package builds one "create page" request for the Notion REST API.
It ships two near-identical classes: `NotionService`, configured through setters, and `Notion`, which reads its configuration from a Symfony parameter bag.
In both classes, eight property setters append single-entry fragments `[name => wire shape]` to the list `_data['properties']`.
`createPage` then does three things:

- it flattens that list into a name → wire-shape array by assigning `$properties[name] = shape` for each fragment in turn;
- it assembles a body of `parent.database_id`, `properties` and `children` (always `[]`) and POSTs it;
- it returns true exactly when the status code is 200.

The model has one shared layer and one class per PHP class:

- `Wire.Json` stands for the PHP value handed to the JSON encoder. `OrderedMap` models PHP arrays used as dictionaries: an assignment to an existing key replaces the value where that key stands, and a new key is appended at the end.
- `OrderedMap.Flattened` is the reference meaning of the flattening loop. It is a fold of `Put` over the fragments. Lemmas characterise it independently:
  - every declared name appears exactly once, and nothing else appears;
  - a name's value is that of its last declaration (`LastGet`);
  - entries are ordered by each name's first declaration;
  - every entry is a declared fragment;
  - a list with no repeated names comes out unchanged.
- `Properties.PropValue` gives the eight kinds as typed values. `Encode` gives each kind's wire shape. `Decode` reads a shape back. The two are inverse in both directions, so a recorded shape keeps the given value unaltered.
- `PageRequest` holds the request datatypes and the `Flatten` method, which is the `foreach` loop proved equal to `Flattened`.
- `Services.NotionService` and `Service.Notion` are the two classes. Their fields are updated in place by the setters, and `CreatePage` states the request and the verdict.
- `Scenarios` drives both classes through complete page creations, including a repeated name.

Three behaviours of the code are easy to misread:

- Duplicate property names are last-write-wins, each kept at its first declaration's position: a redeclared name does not keep its first value.
- In `NotionService`, `setKeyApi` stores the key in `_apiKey`, but `createPage` reads `_keyApi`, which nothing assigns. The `Authorization` header is therefore always `"Bearer "`. `NotionService.Valid()` records that `keyApi` stays null.
- `NotionService.createPage` builds its URL as `_urlApi . _urlApi`, because `$apiUrl` is read from the same field.

Inputs and outputs at the edges:

- The HTTP status code is an input of `CreatePage`.
- The request handed to the HTTP client is an output of `CreatePage`.
- The parameter-bag values are an input of `Service.Notion.CreatePage`, as the `Parameters` datatype.
- PHP `null` in a configuration field is `None`. String concatenation reads it as `""` (`OrEmpty`).
- The initial `null` of `_data['properties']` is the empty list. `createPage` treats both the same way.

## Model

| member | source | states |
|---|---|---|
| `OrderedMap.Put` | src/Services/NotionService.php:224 | assigning a name already present keeps the key order; a new name is appended at the end |
| `OrderedMap.PutGet` | src/Service/Notion.php:192 | after `$properties[k] = v`, `k` maps to `v` and every other name keeps its value |
| `OrderedMap.FlattenedKeys` | src/Services/NotionService.php:221-226 | the flattened map has distinct names, exactly the declared ones; with no declaration it is empty |
| `OrderedMap.FlattenedLastWins` | src/Services/NotionService.php:223-225 | the value under each name is that of its last declaration, and absent names have none |
| `OrderedMap.FlattenedFirstPosition` | src/Service/Notion.php:191-193 | entries are ordered by the first declaration of their name, so a redeclared name keeps its first position |
| `OrderedMap.FlattenedEntriesDeclared` | src/Service/Notion.php:189-194 | every flattened entry is one of the declared (name, shape) fragments |
| `OrderedMap.FlattenedDistinct` | src/Services/NotionService.php:223-225 | when no name repeats, flattening returns the declarations unchanged and in order |
| `Properties.Encode` | src/Services/NotionService.php:81-207 | each wire shape is a one-entry array keyed by the kind (`title`, `rich_text`, `number`, `select`, `url`, `email`, `checkbox`, `multi_select`) and reads back as the same value |
| `Properties.EncodeDecode` | src/Service/Notion.php:49-175 | any shape that reads back as a value is exactly that value's encoding, so shapes and typed values determine each other |
| `PageRequest.ChildrenOrEmpty` | src/Service/Notion.php:208 | null and the empty list both give `[]`; a set list is used as it is |
| `PageRequest.Flatten` | src/Services/NotionService.php:220-226 | the `foreach` loop, with its `count >= 1` guard, computes exactly the reference `Flattened` |
| `PageRequest.FlattenedWellShaped` | src/Service/Notion.php:189-194 | flattening keeps every property in one of the eight kind shapes |
| `Services.NotionService.constructor` | src/Services/NotionService.php:12-30 | configuration fields start null, the property list starts empty, children start null |
| `Services.NotionService.SetUrlApi` | src/Services/NotionService.php:37-41 | sets `_urlApi`; nothing else changes |
| `Services.NotionService.SetVersionApi` | src/Services/NotionService.php:48-52 | sets `_versionApi`; nothing else changes |
| `Services.NotionService.SetKeyApi` | src/Services/NotionService.php:59-63 | sets `_apiKey`, not the `_keyApi` read by `createPage`; nothing else changes |
| `Services.NotionService.SetDatabaseIdApi` | src/Services/NotionService.php:70-74 | sets `_databaseIdApi`; nothing else changes |
| `Services.NotionService.SetTitle` | src/Services/NotionService.php:81-94 | appends one fragment under the fixed name `Name` with shape `title: [{text: {content: t}}]`; nothing else changes |
| `Services.NotionService.SetText` | src/Services/NotionService.php:102-115 | appends one fragment `rich_text: [{text: {content: v}}]` under the given name; nothing else changes |
| `Services.NotionService.SetNumber` | src/Services/NotionService.php:123-130 | appends one fragment `number: v` with the value verbatim; nothing else changes |
| `Services.NotionService.SetSelect` | src/Services/NotionService.php:138-147 | appends one fragment `select: {name: v}`; nothing else changes |
| `Services.NotionService.SetUrl` | src/Services/NotionService.php:155-162 | appends one fragment `url: v` verbatim; nothing else changes |
| `Services.NotionService.SetEmail` | src/Services/NotionService.php:170-177 | appends one fragment `email: v` verbatim; nothing else changes |
| `Services.NotionService.SetCheckbox` | src/Services/NotionService.php:185-192 | appends one fragment `checkbox: v` verbatim; nothing else changes |
| `Services.NotionService.SetMultiSelect` | src/Services/NotionService.php:200-207 | appends one fragment `multi_select: vs` with the list verbatim (no reordering, no deduplication); nothing else changes |
| `Services.NotionService.CreatePage` | src/Services/NotionService.php:212-248 | POSTs to `_urlApi . _urlApi` (null read as `""`, as `OrEmpty` defines it), with headers `Accept: application/json`, `Notion-Version: _versionApi` and `Authorization: "Bearer "`; the body has `database_id = _databaseIdApi`, the flattened properties (each of a kind shape) and `children = []`; returns true iff the status is 200 |
| `Service.Notion.constructor` | src/Service/Notion.php:13-31 | `_urlApi` starts null, the property list starts empty, children start null |
| `Service.Notion.SetUrlApi` | src/Service/Notion.php:38-42 | sets `_urlApi`; nothing else changes |
| `Service.Notion.SetTitle` | src/Service/Notion.php:49-62 | appends one fragment under `Name` with shape `title: [{text: {content: t}}]`; nothing else changes |
| `Service.Notion.SetText` | src/Service/Notion.php:70-83 | appends one fragment `rich_text: [{text: {content: v}}]`; nothing else changes |
| `Service.Notion.SetNumber` | src/Service/Notion.php:91-98 | appends one fragment `number: v` verbatim; nothing else changes |
| `Service.Notion.SetSelect` | src/Service/Notion.php:106-115 | appends one fragment `select: {name: v}`; nothing else changes |
| `Service.Notion.SetUrl` | src/Service/Notion.php:123-130 | appends one fragment `url: v` verbatim; nothing else changes |
| `Service.Notion.SetEmail` | src/Service/Notion.php:138-145 | appends one fragment `email: v` verbatim; nothing else changes |
| `Service.Notion.SetCheckbox` | src/Service/Notion.php:153-160 | appends one fragment `checkbox: v` verbatim; nothing else changes |
| `Service.Notion.SetMultiSelect` | src/Service/Notion.php:168-175 | appends one fragment `multi_select: vs` with the list verbatim; nothing else changes |
| `Service.Notion.CreatePage` | src/Service/Notion.php:180-216 | POSTs to `api_url . _urlApi` (a null `_urlApi` read as `""`, as `OrEmpty` defines it), with headers `Accept: application/json`, `Notion-Version: api_version` and `Authorization: "Bearer " . api_key`; the body has `database_id = api_database_id`, the flattened properties and `children = []`; returns true iff the status is 200 |
| `Scenarios.ReportPage` | src/Service/Notion.php:180-216 | title `Report`, number `Count = 5` and checkbox `Done = true` produce exactly the expected request to `<base>/pages`, and status 200 is success |
| `Scenarios.ReportPageByService` | src/Services/NotionService.php:212-248 | the setter-configured builder sends to the base URL twice, and the configured key is not sent |
| `Scenarios.RepeatedScore` | src/Service/Notion.php:189-215 | `Score = 1`, `Done`, `Score = 2` flatten to `Score = 2` in first position, then `Done`; status 201 is failure |

## Left out

- The HTTP transport is not modelled: the client call, TLS, network errors and exceptions. Only the request handed to it and the status code it reports appear.
- The HTTP client's wiring is not modelled. `NotionService`'s constructor stores the client as `httpClientInterface`, while `createPage` calls `_client`, which is never set. The model assumes the request reaches a client.
- Parameter-bag lookups are not modelled, including the exception for a missing parameter. Their results are opaque strings.
- JSON encoding is not modelled. In particular, PHP's `json_encode` writes an empty `properties` array as `[]` rather than `{}`.
- PHP array-key casting is not modelled. PHP stores a property name such as `"5"` as the integer key `5`. Property names are plain strings here.
- The fluent `return $this` of the configuration setters is not modelled. Those methods return nothing here.
- A PHP fragment is a one-entry array whose entry is read with `key()` and `array_values()[0]`. Here it is a (name, shape) pair.
- PHP dynamic typing is not modelled. Numbers are `int`, following the `@param int` docblock. A multi-select value is a list of JSON values. Values of other PHP types given to a setter are not modelled.
