# NASA DONKI notification microservice — Dafny model

The service answers `GET /donki-notifications` by calling NASA's DONKI
notifications endpoint for today's date, then annotating every returned
notification with a human-readable `fullName` and `description` taken from a
fixed table keyed by the notification's `messageType` code. Any failure
collapses into one fixed 500 response.

This project models that core as pure functions over immutable values:

- `ArrayMap` — `Array.prototype.map`, where a throwing callback abandons the
  whole map.
- `Json` — parsed JSON values (`Value`), records as `map<string, Value>`, and
  the JavaScript semantics the transform depends on: how a value becomes a
  property key, and when that conversion throws (`ToPropertyKey`,
  `KeyThrows`), and what object spread copies out of a value (`Spread`).
- `TypeDetails` — the ten-entry type table and its lookup.
- `Enrichment` — the per-record transform and its lift to arrays, with the
  `||` fallbacks to "Unknown Type" / "No description available.".
- `UpstreamRequest` — the upstream query parameters: a one-day window
  (`startDate == endDate`, the text before the first `T` of the current ISO
  timestamp), the `type` filter defaulting to `"all"`, and the API key.
- `NotificationsRoute` — `fetchDONKIData` and the route handler. The HTTP
  call is a parameter `get: UpstreamParams -> Result<Value, UpstreamError>`;
  the clock is a parameter `nowIso` holding the `toISOString()` text; the API
  key is an opaque `Option<string>`.

Behaviour of the code that is easy to miss, and that the model keeps:

- Enrichment is additive except for the two fields it writes. The code
  spreads the record first and then sets `fullName` and `description`, so a
  record that already has either field gets it overwritten
  (`PriorEnrichmentFieldsOverwritten`). Every other field is kept unchanged.
- The table is indexed with the JavaScript property key of `messageType`, not
  only with string codes. A missing field looks up `"undefined"`. An array is
  joined with commas first. So `messageType: ["FLR"]` is enriched as a solar
  flare (`SingletonArrayTypeActsAsCode`). No non-string value other than a
  one-element array reaches a table entry (`NonStringTypeIsUnknown`); a
  one-element array names what its element names (`SingletonArrayKey`,
  `SingletonArrayTypeActsAsElement`), so nested ones such as `[["FLR"]]` do
  too (`NestedArrayTypeExample`).
- Some successful upstream replies still make the code fail. A body that is
  not an array has no callable `map`. A `null` element throws when
  `messageType` is read from it. A `messageType` object with its own
  `toString` field, alone or inside an array, throws when it is converted to
  a table key: parsed JSON has no callable `toString`, and the inherited
  `valueOf` returns the object itself. All of these end in the same 500 (`MalformedBodyFails`,
  `ToStringTypeExample`).
- The date sent upstream is the UTC date of `toISOString()`, not a local date.

## Model

| member | source | states |
|---|---|---|
| `TypeDetails.Lookup` | index.js:18-29 | the table has an entry exactly for the ten codes FLR, SEP, CME, IPS, MPC, GST, RBE, HSS, report, all, and every entry's name and description are non-empty |
| `TypeDetails.KnownCodeShape` | index.js:18-29 | every table code is non-empty, has no comma and does not start with a digit or minus sign |
| `Json.ToPropertyKey` | index.js:53 | the conversion to a table key throws exactly when the value holds an object with its own `toString` field; a string indexes the table as itself; an array of two or more elements becomes a key containing a comma |
| `Json.SingletonArrayKey` | index.js:53 | a one-element array indexes the table like its element does (a `null` element gives the empty key) |
| `Json.NatToString` | index.js:55 | array and string indexes are named by non-empty decimal digit strings with no leading zero, "0" naming index 0 only |
| `Json.ParseNatToString` | index.js:55 | reading an index name back gives the index |
| `Json.NatToStringInjective` | index.js:55 | distinct array positions are spread under distinct property names |
| `ArrayMap.MapOrFail` | index.js:52 | `map` fails exactly when the callback fails on some element; otherwise it keeps length and order, element i of the result being the callback's value on element i |
| `ArrayMap.MapOrFailDistributes` | index.js:52 | mapping a concatenation succeeds exactly when both parts do, and is then the concatenation of the mapped parts |
| `Json.Spread` | index.js:55 | spread copies an object's own fields as they are, a string's characters and an array's elements under their decimal indexes, and nothing from a number or boolean |
| `Enrichment.MessageTypeKey` | index.js:53 | the key conversion fails exactly when `messageType` is present and throws; a string `messageType` is looked up as itself; a record with no `messageType` never finds a table entry |
| `Enrichment.EnrichRecord` | index.js:52-58 | the callback fails exactly when the type code throws; otherwise output keys are the input keys plus `fullName` and `description`, every other field keeps its value, and the two fields hold the table entry for a known code and the two fallback texts otherwise |
| `Enrichment.UnknownExactlyWhenNotInTable` | index.js:53-57 | `fullName` is "Unknown Type" if and only if the code is not in the table, and likewise for the fallback description |
| `Enrichment.KnownCodeEnrichment` | index.js:53-57 | a record whose `messageType` is a known code is enriched, with exactly that code's name and description |
| `Enrichment.NonStringTypeIsUnknown` | index.js:53 | an absent, null, boolean, number, object or non-singleton-array `messageType` never names a table entry, and gets the fallback texts whenever its conversion does not throw |
| `Enrichment.SingletonArrayTypeActsAsCode` | index.js:53 | `messageType: [code]` is enriched like `messageType: code` |
| `Enrichment.SingletonArrayTypeActsAsElement` | index.js:53 | `messageType: [e]` is looked up under the key of `e` (the empty string for `null`); for non-null `e` the record throws, is known and gets the same two fields as with `messageType: e` |
| `Enrichment.NestedArrayTypeExample` | index.js:53 | `messageType: [["FLR"]]` still names the solar flare entry |
| `Enrichment.FlareRecordExample` | index.js:19 | `{messageType: "FLR", messageID: "x"}` becomes exactly that record plus `fullName` "Solar Flare" and the flare description |
| `Enrichment.ToStringFieldTypeThrows` | index.js:53 | a `messageType` object with its own `toString` field, alone or as the single element of an array, makes the callback throw |
| `Enrichment.PriorEnrichmentFieldsOverwritten` | index.js:54-58 | existing `fullName`/`description` values have no effect on the result: they are overwritten |
| `Enrichment.StripEnrichmentRestoresRecord` | index.js:54-58 | removing the two enrichment fields from the output gives the input minus those fields, and the input itself when it had neither |
| `Enrichment.EnrichRecordIdempotent` | index.js:53-57 | enriching an already enriched record gives it back unchanged |
| `Enrichment.EnrichAll` | index.js:52-59 | the array fails exactly when some record's type code throws; otherwise it keeps its length and order, output element i being the enrichment of input element i |
| `Enrichment.EnrichAllDistributes` | index.js:52-59 | enriching a concatenation is the concatenation of the enriched parts, failing exactly when a part fails, so no element depends on its neighbours |
| `Enrichment.EnrichAllSingleton` | index.js:52-59 | a one-element array is enriched exactly as its element is |
| `Enrichment.EnrichAllIdempotent` | index.js:52-59 | enriching an enriched array gives it back unchanged |
| `Enrichment.EnrichElement` | index.js:52-58 | an element makes the callback throw exactly when it is `null` or an object whose type code throws; an object element is enriched as its record |
| `Enrichment.EnrichElements` | index.js:52-59 | the mapped array fails exactly when some element throws; otherwise it has the input's length, and element i is element i spread and enriched |
| `Enrichment.EnrichElementsOfObjects` | index.js:52-59 | on an array of objects the element-level result, failure included, is the record-level one |
| `UpstreamRequest.DatePrefix` | index.js:36 | the date is a prefix of the timestamp with no `T` in it, ending at the timestamp's end or at its first `T` |
| `UpstreamRequest.DatePrefixUnique` | index.js:36 | any prefix with those three properties is the date prefix |
| `UpstreamRequest.IsoTimestampDate` | index.js:36 | for a `yyyy-MM-ddTHH:mm:ss.sssZ` timestamp the date is its first ten characters, in `yyyy-MM-dd` form |
| `UpstreamRequest.BuildParams` | index.js:31-45 | `startDate == endDate`, both the date prefix of the timestamp; `type` is "all" when absent and otherwise passed through unchanged; the key is passed through |
| `UpstreamRequest.BuildParamsDateWindow` | index.js:36-43 | with a well-formed timestamp both window ends are its calendar date |
| `NotificationsRoute.FetchDonkiData` | index.js:31-66 | succeeds exactly when the call succeeds with an array none of whose elements throws; the result then has the array's length and holds each element spread and enriched, in order |
| `NotificationsRoute.HandleDonkiNotifications` | index.js:69-86 | the status is 200 exactly when the fetch succeeds, with the enriched array as body; otherwise the response is the fixed 500 |
| `NotificationsRoute.FailureCollapses` | index.js:63-65 | any upstream failure gives 500 with body `{error: "Failed to retrieve DONKI notifications"}`, the same whatever the cause |
| `NotificationsRoute.MalformedBodyFails` | index.js:49-65 | a non-array body, or an element the callback throws on, also gives the fixed 500 |
| `NotificationsRoute.ObjectArrayResponse` | index.js:74-85 | an array of objects comes back as 200 with exactly those objects enriched, in order, or as the fixed 500 when some object's type code throws |
| `NotificationsRoute.FlareExample` | index.js:52-59 | `?type=FLR` asks upstream for type FLR, and `[{messageType: "FLR", messageID: "x"}]` comes back with "Solar Flare" and its description added |
| `NotificationsRoute.ToStringTypeExample` | index.js:53-65 | the reply `[{messageType: {toString: 1}}]` gives the fixed 500 |

## Left out

- Express setup, route registration, `app.listen`, the `GET /` welcome route and the `PORT` setting: framework plumbing.
- The axios call, the endpoint URL and the query-string encoding: network I/O, modelled as the injected `get` function.
- `dotenv` and `process.env.NASA_API_KEY`: ambient configuration, modelled as an opaque `Option<string>` key.
- `new Date()`: the clock, replaced by the timestamp text passed in as `nowIso`; years outside 0–9999 (`±YYYYYY` form) are covered by `DatePrefix` but not by `IsoTimestampDate`.
- Console logging: side effects outside the contract.
- Asynchronous scheduling: the model is sequential; requests share no state.
- JSON serialisation by `res.json`, and property order within objects: records are maps, which have no order.
- `Json.Value`: JSON numbers are integers; fractional numbers are not modelled.
- `Json.ToPropertyKey`: integers are written in plain decimal, while JavaScript switches to exponent notation from 1e21. No table code is numeric, so the lookup outcome is the same.
- `Json.Spread`: a string is split into Dafny characters, not UTF-16 code units.
- `UpstreamRequest.BuildParams`: the `type` query parameter is modelled as an absent or string value. The query parser can also yield arrays or objects, which the code would forward unchanged as well.
- Prototype-chain lookups on the table (`constructor`, `__proto__`, …): the table is a finite map. In the code such keys find an object without `fullName`/`description`, so they take the fallback texts just as a missing key does.
- The `Error` messages carried by the failures: they are only logged and never reach the response.
