# Contentstack management client: request building and error normalisation

This project models `index.js` of the Contentstack client behind the MCP
server. That file is a thin wrapper over the Contentstack Content Management
API. It covers:

- resolving a region to the API base URL;
- merging an explicit configuration over the defaults read from the environment;
- building each request: method, URL, the three headers, and a body only for
  POST and PUT;
- building the endpoint and query string of each of the seventeen operations;
- turning what the HTTP client reports into either the response data or a
  single error message.

The model has five modules:

- `JsValues` (`js_values.dfy`) holds the slice of JavaScript the file relies
  on: values, truthiness, `String(v)`, property reads and the object spread
  `{ ...a, ...b }`.
- `Regions` (`regions.dfy`) holds `REGION_MAPPER` and `getBaseURL`.
- `QueryStrings` (`query_strings.dfy`) models `URLSearchParams` as a class
  whose pair list the operations append to. Its `toString` is the
  application/x-www-form-urlencoded serializer of section 5.2 of the WHATWG
  URL Standard, with per-character percent-encoding kept abstract as a
  function `enc`. The module also has the two imperative query builders and
  a parser that shows the serialization is lossless.
- `Requests` (`requests.dfy`) holds `createHeaders` and `makeRequest`. The
  HTTP client is replaced by a `transport` function from the request to an
  `Outcome`: a response with a status and data, no response, or a failure
  before sending.
- `Catalog` (`catalog.dfy`) holds the seventeen operations and `initialize`.

Where the system's documented behaviour and the code differ, the model
follows the code:

- There is no `query=` JSON partition of the options. Every option becomes
  its own pair.
- Error messages carry no status-specific prefixes or replacements for 401,
  403, 404 or 422.
- When no response arrives, the message is exactly `No response received from server`.
- Publish and unpublish post to `/publish` and `/unpublish`, with no UIDs in
  the path.
- A status below 200 also fails, because the client's `validateStatus`
  rejects it (index.js:49-51) and the `catch` block then builds the message
  from the response.

## Model

| member | source | states |
|---|---|---|
| JsValues.ToJsString | index.js:63-67 | `String(v)` leaves a string unchanged, so a string `error_message` or `error` becomes the message verbatim |
| JsValues.NatToStringRoundTrip | index.js:66 | the decimal digits printed for the status in `Request failed with status N` read back as N |
| JsValues.SpreadGet | index.js:41 | after `{ ...defaults, ...config }`, each key reads as the explicit value where `config` has the key (even an undefined one), else the default; the merged object has exactly the keys of both |
| JsValues.SpreadIdempotent | index.js:41 | spreading the defaults again under an already merged configuration gives the same object, property order included |
| Regions.Lookup | index.js:24 | a found URL is the table row for the key; a miss means no row has that key |
| Regions.KeysOf | index.js:26 | `Object.keys` lists the table's keys, one per row, in row order |
| Regions.SupportedListText | index.js:26 | the list printed in the invalid-region message is the six codes in table order, joined by `, `: `NA, EU, AZURE_NA, AZURE_EU, GCP_NA, GCP_EU` |
| Regions.LookupCode | index.js:5-24 | each region's code finds that region's URL in the mapper |
| Regions.FoundIsCode | index.js:5-24 | every key the mapper has is the code of some region |
| Regions.MapperMatchesRegions | index.js:5-12 | a key is in the mapper iff it is the code of one of the six regions, and it maps to that region's URL |
| Regions.BaseUrlOfString | index.js:23-29 | a string region resolves iff its upper-case form is a region code, then to that region's URL; otherwise the call throws the invalid-region message |
| Regions.BaseUrlCaseInsensitive | index.js:24 | two spellings that upper-case alike both resolve, to the same URL, or both fail |
| Regions.CodeResolves | index.js:24 | any spelling that upper-cases to a region's code (`"eu"`, `"Eu"`, `"EU"`) resolves to that region's URL |
| QueryStrings.SerializeEmpty | index.js:121-122 | the query string is empty iff no pair was appended, which is what decides whether `?` is added |
| QueryStrings.ParseSerialize | index.js:121 | when the encoder escapes `&` and `=`, form-urlencoded parsing of the serialized list gives back every pair, in order, as encoded |
| QueryStrings.SearchParams.constructor | index.js:111 | a fresh `URLSearchParams` holds no pairs |
| QueryStrings.SearchParams.FromRecord | index.js:105 | `new URLSearchParams(record)` holds every own property, in order, with its value converted by `String` |
| QueryStrings.SearchParams.Append | index.js:113 | `append` adds the pair at the end and keeps the earlier pairs |
| QueryStrings.PassPairs | index.js:105 | a pass-through query has one pair per option, keeping each option's name in place |
| QueryStrings.PassQuery | index.js:104-107 | the query of `getEntries` and `getAssets` is the serialization of every option in insertion order |
| QueryStrings.OptionQuery | index.js:109-121 | the builder's appends yield exactly `environment` (when truthy and hoisted), then `locale` (when truthy), then every other option in insertion order, serialized |
| QueryStrings.HoistedPlacement | index.js:110-114 | `environment` appears only when truthy and then first; `locale` appears only when truthy and then right after it; a falsy one is dropped, never moved among the rest |
| QueryStrings.RestWithoutTakenKeys | index.js:110-119 | with no destructured key in the options, the remaining options are all the options in order |
| QueryStrings.RestPairsAvoid | index.js:110 | the remaining options never carry a destructured key |
| QueryStrings.EntryOptionsPassThrough | index.js:109-121 | options naming neither `environment` nor `locale` produce the same pairs as `new URLSearchParams(options)` |
| QueryStrings.LocaleRest | index.js:242-250 | after `const { locale, ...rest }`, the appended rest is every option except `locale`, in insertion order |
| QueryStrings.LocalizeKeepsEnvironment | index.js:242-252 | `localizeEntry` hoists only `locale`: its pairs are `locale` when truthy, then every other option in insertion order, `environment` included where it was given |
| QueryStrings.LocalizeExample | index.js:242-252 | `{ a: "1", environment: "dev", locale: "en" }` gives the pairs `locale=en`, `a=1`, `environment=dev` |
| Requests.DefaultConfig | index.js:15-20 | the defaults have distinct keys and a non-empty string region, which is `NA` when `CONTENTSTACK_REGION` is unset |
| Requests.BuildRequest | index.js:41-57 | building the request, with the body set afterwards only for a truthy POST or PUT body, yields the request specified by `RequestFor` or the region error |
| Requests.MakeRequest | index.js:39-88 | the try/catch flow returns the data or throws exactly the message `RequestResult` specifies, for every transport outcome |
| Requests.RequestShape | index.js:41-48 | the request fails iff the effective region does not resolve, with that error; otherwise its URL is the base URL followed by the endpoint, and its headers are exactly `api_key`, `authorization` and `Content-Type: application/json`, each credential explicit where given and default otherwise |
| Requests.BodyRule | index.js:54-57 | a body is attached iff the data is truthy and the method is POST or PUT, and it is the data itself |
| Requests.SameReadsSameRequest | index.js:42-57 | the request depends on the merged configuration only through `region`, `apiKey` and `managementToken` |
| Requests.DeliveryTokenUnused | index.js:32-36 | configurations differing only in `deliveryToken` build identical requests |
| Requests.SettleResponse | index.js:49-70 | a response resolves the call iff its status is in [200, 400), and then with the data unchanged |
| Requests.FailureMessage | index.js:62-79 | a failed status throws `String(error_message)` when it is truthy (a non-empty string verbatim, a number or object printed), else `String(error)` when truthy, else `Request failed with status N` with N in decimal, negative included |
| Requests.SettleWithoutResponse | index.js:80-86 | a lost response throws `No response received from server`; a failure before sending keeps its own message |
| Requests.InvalidRegionSendsNothing | index.js:39-88 | when the region does not resolve, the result is that error whatever the transport would do |
| Requests.UndefinedRegionOverrides | index.js:23-42 | an explicit `region: undefined` overrides the default and fails on `toUpperCase` |
| Catalog.PlanRoute | index.js:91-255 | each operation's body yields the method, endpoint and data `RouteOf` lists for it |
| Catalog.ContentTypeRoute | index.js:91-175 | the bodies of the content-type and entry operations build their query through `URLSearchParams` and yield the route `RouteOf` lists; `localizeEntry` (index.js:241-255) is included |
| Catalog.OtherRoute | index.js:178-238 | the bodies of the asset, environment, publish and language operations yield the route `RouteOf` lists |
| Catalog.Call | index.js:91-255 | calling an operation gives exactly `makeRequest`'s result on that operation's route |
| Catalog.Initialize | index.js:258-259 | the client's configuration reads, key by key, as the explicit value where given and the default otherwise |
| Catalog.InitializeForwards | index.js:258-278 | every bound method behaves exactly like the exported operation called with the explicit configuration |
| Catalog.ReadsSendNoBody | index.js:54-57 | operations using GET or DELETE never send a body, whatever data they were given |
| Catalog.PathIsJoin | index.js:91-255 | each endpoint template is its `/`-joined path segments, followed by `?` and the query exactly where the operation adds one |
| Catalog.EndpointShape | index.js:91-255 | with UIDs free of `/` and `?`, each endpoint's path splits back into the operation's segments with every UID verbatim; `?` appears iff the operation is `getEntries` or `getAssets` or its query has pairs; what follows `?` is the operation's pairs serialized |
| Catalog.EndpointQueryParses | index.js:104-122 | the query after `?` parses back into the operation's pairs, in order |

## Left out

- The HTTP call itself (index.js:59) and its promise plumbing are not modelled. The `transport` function stands for what the HTTP client does with a request.
- Header values the HTTP client drops or rewrites (undefined credentials, for example) are not modelled. The request keeps them as built.
- Loading `.env` and reading `process.env` (index.js:2, 15-20) are left out. The environment is a map handed to `Requests.DefaultConfig`.
- Per-character percent-encoding in `URLSearchParams.toString` is an abstract function `enc`. Only the ordering of pairs and the `&`/`=` joining are modelled.
- `new URLSearchParams(query)` is modelled for a plain object only. A string or an array of pairs passed as `query` is not modelled.
- JavaScript numbers are integers in this model. Floating-point values, `NaN`, `-0` and their `String` forms are not modelled.
- JsValues.IntToString: prints every integer in plain decimal. JavaScript prints a number of 1e21 or more in exponent form (`1e+21`), and integers beyond 2^53 are not exact JavaScript numbers. The difference reaches option values in query strings and the status in `Request failed with status N`.
- JavaScript orders integer-like property names before the others. The model keeps every object's properties in the order given.
- Regions.Upper: only ASCII letters are upper-cased. Some other characters do upper-case to strings holding code letters (`ŉ` to `ʼN`, `ẚ` to `Aʾ`), but each such result also holds a character that occurs in no code. No non-ASCII character upper-cases to a string made only of the characters of the codes (`N A E U Z R G C P _`): the ligatures give F, I, L, S or T, and `ı` and `ſ` give I and S. So resolution is unaffected.
- A region object with its own `toUpperCase` method is not modelled. Any non-string region fails with the engine's TypeError text.
- The rest of the client is outside this model:
  - mcp-server.js, with its tool schemas, stdio transport and dispatch;
  - test.js, a demonstration script;
  - index.d.ts, a type declaration file. Only its `Region` type informs `Regions.Region`.
