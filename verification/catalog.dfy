/** The seventeen operations of index.js: for each, the HTTP method, the
    endpoint (path template, UIDs interpolated as given, and query string)
    and the data it hands to `makeRequest`; and `initialize`, which binds
    every operation to one merged configuration. */
module Catalog {
  import opened JsValues
  import opened Regions
  import opened QueryStrings
  import opened Requests

  /** One call of an exported operation, with its arguments (the trailing
      `config` argument aside). */
  datatype Operation =
    | GetContentTypes
    | GetContentType(uid: string)
    | CreateContentType(data: Value)
    | GetEntries(contentTypeUid: string, query: Object)
    | GetEntry(contentTypeUid: string, entryUid: string, options: Object)
    | CreateEntry(contentTypeUid: string, data: Value, options: Object)
    | UpdateEntry(contentTypeUid: string, entryUid: string, data: Value, options: Object)
    | DeleteEntry(contentTypeUid: string, entryUid: string, options: Object)
    | GetAssets(query: Object)
    | GetAsset(assetUid: string)
    | UploadAsset(data: Value)
    | GetEnvironments
    | GetEnvironment(uid: string)
    | PublishEntry(data: Value, options: Object)
    | UnpublishEntry(data: Value, options: Object)
    | GetLanguages
    | LocalizeEntry(contentTypeUid: string, entryUid: string, data: Value, options: Object)

  /** The first three arguments an operation passes to `makeRequest`. */
  datatype Route = Route(verb: HttpMethod, endpoint: string, data: Value)

  /** `${path}${queryString ? `?${queryString}` : ''}`. */
  function WithQuery(path: string, query: string): string {
    if query == "" then path else path + "?" + query
  }

  /** The route of each operation, as its body builds it. */
  function RouteOf(op: Operation, enc: string -> string): Route {
    match op
    case GetContentTypes => Route(GET, "/content_types", Null)
    case GetContentType(uid) => Route(GET, "/content_types/" + uid, Null)
    case CreateContentType(data) => Route(POST, "/content_types", data)
    case GetEntries(ct, query) =>
      Route(GET, "/content_types/" + ct + "/entries?" + Serialize(enc, PassPairs(query)), Null)
    case GetEntry(ct, e, options) =>
      Route(GET, WithQuery("/content_types/" + ct + "/entries/" + e, Serialize(enc, OptionPairs(options, true))), Null)
    case CreateEntry(ct, data, options) =>
      Route(POST, WithQuery("/content_types/" + ct + "/entries", Serialize(enc, OptionPairs(options, true))), data)
    case UpdateEntry(ct, e, data, options) =>
      Route(PUT, WithQuery("/content_types/" + ct + "/entries/" + e, Serialize(enc, OptionPairs(options, true))), data)
    case DeleteEntry(ct, e, options) =>
      Route(DELETE, WithQuery("/content_types/" + ct + "/entries/" + e, Serialize(enc, OptionPairs(options, true))), Null)
    case GetAssets(query) => Route(GET, "/assets?" + Serialize(enc, PassPairs(query)), Null)
    case GetAsset(uid) => Route(GET, "/assets/" + uid, Null)
    case UploadAsset(data) => Route(POST, "/assets", data)
    case GetEnvironments => Route(GET, "/environments", Null)
    case GetEnvironment(uid) => Route(GET, "/environments/" + uid, Null)
    case PublishEntry(data, options) =>
      Route(POST, WithQuery("/publish", Serialize(enc, OptionPairs(options, true))), data)
    case UnpublishEntry(data, options) =>
      Route(POST, WithQuery("/unpublish", Serialize(enc, OptionPairs(options, true))), data)
    case GetLanguages => Route(GET, "/locales", Null)
    case LocalizeEntry(ct, e, data, options) =>
      Route(POST, WithQuery("/content_types/" + ct + "/entries/" + e + "/localize",
                            Serialize(enc, OptionPairs(options, false))), data)
  }

  /** The operations under `/content_types`. */
  predicate UnderContentTypes(op: Operation) {
    || op.GetContentTypes? || op.GetContentType? || op.CreateContentType?
    || op.GetEntries? || op.GetEntry? || op.CreateEntry? || op.UpdateEntry? || op.DeleteEntry?
    || op.LocalizeEntry?
  }

  /** The operation bodies: the query strings built through a
      `URLSearchParams` object, then the endpoint template. */
  method PlanRoute(op: Operation, enc: string -> string) returns (route: Route)
    ensures route == RouteOf(op, enc)
  {
    if UnderContentTypes(op) {
      route := ContentTypeRoute(op, enc);
    } else {
      route := OtherRoute(op, enc);
    }
  }

  /** The bodies of the content-type and entry operations. */
  method ContentTypeRoute(op: Operation, enc: string -> string) returns (route: Route)
    requires UnderContentTypes(op)
    ensures route == RouteOf(op, enc)
  {
    match op
    case GetContentTypes =>
      route := Route(GET, "/content_types", Null);
    case GetContentType(uid) =>
      route := Route(GET, "/content_types/" + uid, Null);
    case CreateContentType(data) =>
      route := Route(POST, "/content_types", data);
    case GetEntries(ct, query) =>
      var queryString := PassQuery(query, enc);
      route := Route(GET, "/content_types/" + ct + "/entries?" + queryString, Null);
    case GetEntry(ct, e, options) =>
      var queryString := OptionQuery(options, true, enc);
      route := Route(GET, WithQuery("/content_types/" + ct + "/entries/" + e, queryString), Null);
    case CreateEntry(ct, data, options) =>
      var queryString := OptionQuery(options, true, enc);
      route := Route(POST, WithQuery("/content_types/" + ct + "/entries", queryString), data);
    case UpdateEntry(ct, e, data, options) =>
      var queryString := OptionQuery(options, true, enc);
      route := Route(PUT, WithQuery("/content_types/" + ct + "/entries/" + e, queryString), data);
    case DeleteEntry(ct, e, options) =>
      var queryString := OptionQuery(options, true, enc);
      route := Route(DELETE, WithQuery("/content_types/" + ct + "/entries/" + e, queryString), Null);
    case LocalizeEntry(ct, e, data, options) =>
      var queryString := OptionQuery(options, false, enc);
      route := Route(POST, WithQuery("/content_types/" + ct + "/entries/" + e + "/localize", queryString), data);
  }

  /** The bodies of the asset, environment, publishing and language operations. */
  method OtherRoute(op: Operation, enc: string -> string) returns (route: Route)
    requires !UnderContentTypes(op)
    ensures route == RouteOf(op, enc)
  {
    match op
    case GetAssets(query) =>
      var queryString := PassQuery(query, enc);
      route := Route(GET, "/assets?" + queryString, Null);
    case GetAsset(uid) =>
      route := Route(GET, "/assets/" + uid, Null);
    case UploadAsset(data) =>
      route := Route(POST, "/assets", data);
    case GetEnvironments =>
      route := Route(GET, "/environments", Null);
    case GetEnvironment(uid) =>
      route := Route(GET, "/environments/" + uid, Null);
    case PublishEntry(data, options) =>
      var queryString := OptionQuery(options, true, enc);
      route := Route(POST, WithQuery("/publish", queryString), data);
    case UnpublishEntry(data, options) =>
      var queryString := OptionQuery(options, true, enc);
      route := Route(POST, WithQuery("/unpublish", queryString), data);
    case GetLanguages =>
      route := Route(GET, "/locales", Null);
  }

  /** What calling the operation with configuration `config` resolves with,
      or the message it rejects with. */
  function OperationResult(op: Operation, config: Object, defaults: Object, enc: string -> string,
                           transport: Request -> Outcome): Completion<Value> {
    var route := RouteOf(op, enc);
    RequestResult(route.verb, route.endpoint, route.data, config, defaults, transport)
  }

  /** Calling an exported operation: its body, then `makeRequest`. */
  method Call(op: Operation, config: Object, defaults: Object, enc: string -> string, transport: Request -> Outcome)
    returns (r: Completion<Value>)
    ensures r == OperationResult(op, config, defaults, enc, transport)
  {
    var route := PlanRoute(op, enc);
    r := MakeRequest(route.verb, route.endpoint, route.data, config, defaults, transport);
  }

  /** The client `initialize` returns: every one of its seventeen methods
      calls the exported operation with this one merged configuration. */
  datatype Client = Client(config: Object)

  /** `initialize(config)`: the explicit configuration spread over the
      defaults, key by key. */
  function Initialize(defaults: Object, config: Object): (client: Client)
    ensures forall k :: Get(client.config, k) == if HasKey(config, k) then Get(config, k) else Get(defaults, k)
  {
    SpreadGetAll(defaults, config);
    Client(Spread(defaults, config))
  }

  lemma SpreadGetAll(a: Object, b: Object)
    ensures forall k :: Get(Spread(a, b), k) == if HasKey(b, k) then Get(b, k) else Get(a, k)
  {
    forall k
      ensures Get(Spread(a, b), k) == if HasKey(b, k) then Get(b, k) else Get(a, k)
    {
      SpreadGet(a, b, k);
    }
  }

  /** A client method behaves exactly as the exported operation called with
      the explicit configuration: `makeRequest` spreading the defaults again
      under the merged configuration changes nothing. */
  lemma InitializeForwards(defaults: Object, config: Object, op: Operation, enc: string -> string,
                           transport: Request -> Outcome)
    requires DistinctKeys(defaults)
    ensures OperationResult(op, Initialize(defaults, config).config, defaults, enc, transport)
         == OperationResult(op, config, defaults, enc, transport)
  {
    SpreadIdempotent(defaults, config);
  }

  /** Every operation whose method is GET or DELETE sends no body, whatever
      it was given. */
  lemma ReadsSendNoBody(op: Operation, config: Object, defaults: Object, enc: string -> string)
    requires RouteOf(op, enc).verb == GET || RouteOf(op, enc).verb == DELETE
    ensures var route := RouteOf(op, enc);
      var r := RequestFor(route.verb, route.endpoint, route.data, config, defaults);
      r.Ok? ==> r.value.body == None
  {
  }

  /** The path of each operation, segment by segment, as `/` separates them. */
  function PathSegments(op: Operation): seq<string> {
    match op
    case GetContentTypes => ["", "content_types"]
    case GetContentType(uid) => ["", "content_types", uid]
    case CreateContentType(_) => ["", "content_types"]
    case GetEntries(ct, _) => ["", "content_types", ct, "entries"]
    case GetEntry(ct, e, _) => ["", "content_types", ct, "entries", e]
    case CreateEntry(ct, _, _) => ["", "content_types", ct, "entries"]
    case UpdateEntry(ct, e, _, _) => ["", "content_types", ct, "entries", e]
    case DeleteEntry(ct, e, _) => ["", "content_types", ct, "entries", e]
    case GetAssets(_) => ["", "assets"]
    case GetAsset(uid) => ["", "assets", uid]
    case UploadAsset(_) => ["", "assets"]
    case GetEnvironments => ["", "environments"]
    case GetEnvironment(uid) => ["", "environments", uid]
    case PublishEntry(_, _) => ["", "publish"]
    case UnpublishEntry(_, _) => ["", "unpublish"]
    case GetLanguages => ["", "locales"]
    case LocalizeEntry(ct, e, _, _) => ["", "content_types", ct, "entries", e, "localize"]
  }

  /** The query pairs an operation builds, in order; none for the operations
      that take no options. */
  function QueryPairs(op: Operation): Option<Pairs> {
    match op
    case GetEntries(_, query) => Some(PassPairs(query))
    case GetAssets(query) => Some(PassPairs(query))
    case GetEntry(_, _, options) => Some(OptionPairs(options, true))
    case CreateEntry(_, _, options) => Some(OptionPairs(options, true))
    case UpdateEntry(_, _, _, options) => Some(OptionPairs(options, true))
    case DeleteEntry(_, _, options) => Some(OptionPairs(options, true))
    case PublishEntry(_, options) => Some(OptionPairs(options, true))
    case UnpublishEntry(_, options) => Some(OptionPairs(options, true))
    case LocalizeEntry(_, _, _, options) => Some(OptionPairs(options, false))
    case _ => None
  }

  /** A UID that interpolates as exactly one path segment. */
  predicate PlainUid(uid: string) {
    '/' !in uid && '?' !in uid
  }

  /** All the UIDs an operation interpolates are plain. */
  predicate PlainUids(op: Operation) {
    match op
    case GetContentType(uid) => PlainUid(uid)
    case GetEnvironment(uid) => PlainUid(uid)
    case GetAsset(uid) => PlainUid(uid)
    case GetEntries(ct, _) => PlainUid(ct)
    case CreateEntry(ct, _, _) => PlainUid(ct)
    case GetEntry(ct, e, _) => PlainUid(ct) && PlainUid(e)
    case UpdateEntry(ct, e, _, _) => PlainUid(ct) && PlainUid(e)
    case DeleteEntry(ct, e, _) => PlainUid(ct) && PlainUid(e)
    case LocalizeEntry(ct, e, _, _) => PlainUid(ct) && PlainUid(e)
    case _ => true
  }

  /** An endpoint cut at its first `?`: the path, and the query when there is a `?`. */
  function SplitQuery(endpoint: string): (string, Option<string>) {
    if '?' in endpoint then
      var i := IndexOf(endpoint, '?');
      (endpoint[..i], Some(endpoint[i + 1..]))
    else (endpoint, None)
  }

  lemma SplitQueryOf(path: string, query: string)
    requires '?' !in path
    ensures SplitQuery(path + "?" + query) == (path, Some(query))
    ensures SplitQuery(path) == (path, None)
  {
    IndexAfter(path, '?', query);
    assert (path + "?" + query)[..|path|] == path;
    assert (path + "?" + query)[|path| + 1..] == query;
  }

  lemma {:induction false} JoinPlain(segments: seq<string>)
    requires forall i :: 0 <= i < |segments| ==> PlainUid(segments[i])
    ensures '?' !in Join(segments, "/")
    decreases |segments|
  {
    if |segments| > 1 {
      JoinPlain(segments[1..]);
    }
  }

  /** Splitting a `/`-joined path at its separators gives back the segments. */
  lemma {:induction false} SplitJoin(segments: seq<string>)
    requires |segments| >= 1
    requires forall i :: 0 <= i < |segments| ==> '/' !in segments[i]
    ensures SplitOn(Join(segments, "/"), '/') == segments
    decreases |segments|
  {
    if |segments| == 1 {
      SplitNoSeparator(segments[0], '/');
    } else {
      SplitJoin(segments[1..]);
      SplitAtSeparator(segments[0], '/', Join(segments[1..], "/"));
    }
  }

  /** Joining a leading empty segment and up to five more with `/`. */
  lemma JoinPath(x: string, y: string, z: string, u: string, v: string)
    ensures Join(["", x], "/") == "" + "/" + x
    ensures Join(["", x, y], "/") == "" + "/" + (x + "/" + y)
    ensures Join(["", x, y, z], "/") == "" + "/" + (x + "/" + (y + "/" + z))
    ensures Join(["", x, y, z, u], "/") == "" + "/" + (x + "/" + (y + "/" + (z + "/" + u)))
    ensures Join(["", x, y, z, u, v], "/") == "" + "/" + (x + "/" + (y + "/" + (z + "/" + (u + "/" + v))))
  {
    JoinCons("", [x], "/");
    assert [""] + [x] == ["", x];
    JoinCons(x, [y], "/");
    assert [x] + [y] == [x, y];
    JoinCons("", [x, y], "/");
    assert [""] + [x, y] == ["", x, y];
    JoinCons(y, [z], "/");
    assert [y] + [z] == [y, z];
    JoinCons(x, [y, z], "/");
    assert [x] + [y, z] == [x, y, z];
    JoinCons("", [x, y, z], "/");
    assert [""] + [x, y, z] == ["", x, y, z];
    JoinCons(z, [u], "/");
    assert [z] + [u] == [z, u];
    JoinCons(y, [z, u], "/");
    assert [y] + [z, u] == [y, z, u];
    JoinCons(x, [y, z, u], "/");
    assert [x] + [y, z, u] == [x, y, z, u];
    JoinCons("", [x, y, z, u], "/");
    assert [""] + [x, y, z, u] == ["", x, y, z, u];
    JoinCons(u, [v], "/");
    assert [u] + [v] == [u, v];
    JoinCons(z, [u, v], "/");
    assert [z] + [u, v] == [z, u, v];
    JoinCons(y, [z, u, v], "/");
    assert [y] + [z, u, v] == [y, z, u, v];
    JoinCons(x, [y, z, u, v], "/");
    assert [x] + [y, z, u, v] == [x, y, z, u, v];
    JoinCons("", [x, y, z, u, v], "/");
    assert [""] + [x, y, z, u, v] == ["", x, y, z, u, v];
  }

  /** The joined segments regrouped the way the templates write them. */
  lemma Regroup(s: string, x: string, t: string, y: string, w: string)
    ensures "" + "/" + s == "/" + s
    ensures "" + "/" + (s + "/" + x) == "/" + s + "/" + x
    ensures "" + "/" + (s + "/" + (x + "/" + t)) == "/" + s + "/" + x + ("/" + t)
    ensures "" + "/" + (s + "/" + (x + "/" + (t + "/" + y))) == "/" + s + "/" + x + ("/" + t + "/") + y
    ensures "" + "/" + (s + "/" + (x + "/" + (t + "/" + (y + "/" + w))))
         == "/" + s + "/" + x + ("/" + t + "/") + y + ("/" + w)
  {
  }

  /** The paths of the content-type and entry templates, segment by segment. */
  lemma EntryPaths(ct: string, e: string)
    ensures Join(["", "content_types"], "/") == "/content_types"
    ensures Join(["", "content_types", ct], "/") == "/content_types/" + ct
    ensures Join(["", "content_types", ct, "entries"], "/") == "/content_types/" + ct + "/entries"
    ensures Join(["", "content_types", ct, "entries", e], "/") == "/content_types/" + ct + "/entries/" + e
    ensures Join(["", "content_types", ct, "entries", e, "localize"], "/")
         == "/content_types/" + ct + "/entries/" + e + "/localize"
  {
    JoinPath("content_types", ct, "entries", e, "localize");
    Regroup("content_types", ct, "entries", e, "localize");
    assert "/" + "content_types" + "/" == "/content_types/";
    assert "/" + "content_types" == "/content_types";
    assert "/" + "entries" + "/" == "/entries/";
    assert "/" + "entries" == "/entries";
    assert "/" + "localize" == "/localize";
  }

  /** The paths of the asset, environment, publishing and locale templates. */
  lemma OtherPaths(uid: string)
    ensures Join(["", "assets"], "/") == "/assets"
    ensures Join(["", "assets", uid], "/") == "/assets/" + uid
    ensures Join(["", "environments"], "/") == "/environments"
    ensures Join(["", "environments", uid], "/") == "/environments/" + uid
    ensures Join(["", "publish"], "/") == "/publish"
    ensures Join(["", "unpublish"], "/") == "/unpublish"
    ensures Join(["", "locales"], "/") == "/locales"
  {
    JoinPath("assets", uid, "", "", "");
    Regroup("assets", uid, "", "", "");
    JoinPath("environments", uid, "", "", "");
    Regroup("environments", uid, "", "", "");
    JoinPath("publish", "", "", "", "");
    Regroup("publish", "", "", "", "");
    JoinPath("unpublish", "", "", "", "");
    Regroup("unpublish", "", "", "", "");
    JoinPath("locales", "", "", "", "");
    Regroup("locales", "", "", "", "");
    assert "/" + "assets" + "/" == "/assets/";
    assert "/" + "environments" + "/" == "/environments/";
  }

  /** The endpoint is the `/`-joined path segments, then `?` and the query
      where the operation adds one: always for `getEntries` and `getAssets`,
      and for the others exactly when the query has pairs. */
  predicate SpelledByPath(op: Operation, enc: string -> string) {
    var e := RouteOf(op, enc).endpoint;
    var path := Join(PathSegments(op), "/");
    var q := QueryPairs(op);
    if op.GetEntries? || op.GetAssets? then e == path + "?" + Serialize(enc, q.value)
    else if q.Some? && q.value != [] then e == path + "?" + Serialize(enc, q.value)
    else e == path
  }

  /** The operations on one entry, under `/content_types/<uid>/entries`. */
  predicate OnEntries(op: Operation) {
    op.GetEntry? || op.CreateEntry? || op.UpdateEntry? || op.DeleteEntry? || op.LocalizeEntry?
  }

  /** The operations on content types, and `getEntries`. */
  predicate OnContentTypes(op: Operation) {
    op.GetContentTypes? || op.GetContentType? || op.CreateContentType? || op.GetEntries?
  }

  /** Each endpoint template is the path its segments spell. */
  lemma PathIsJoin(op: Operation, enc: string -> string)
    ensures SpelledByPath(op, enc)
  {
    if OnEntries(op) {
      EntryPathIsJoin(op, enc);
    } else if OnContentTypes(op) {
      ContentTypePathIsJoin(op, enc);
    } else {
      OtherPathIsJoin(op, enc);
    }
  }

  lemma ContentTypePathIsJoin(op: Operation, enc: string -> string)
    requires OnContentTypes(op)
    ensures SpelledByPath(op, enc)
  {
    match op
    case GetContentTypes => EntryPaths("", "");
    case GetContentType(uid) => EntryPaths(uid, "");
    case CreateContentType(_) => EntryPaths("", "");
    case GetEntries(ct, query) => EntryPaths(ct, "");
  }

  lemma EntryPathIsJoin(op: Operation, enc: string -> string)
    requires OnEntries(op)
    ensures SpelledByPath(op, enc)
  {
    match op
    case GetEntry(ct, e, options) =>
      EntryPaths(ct, e);
      SerializeEmpty(enc, OptionPairs(options, true));
    case CreateEntry(ct, _, options) =>
      EntryPaths(ct, "");
      SerializeEmpty(enc, OptionPairs(options, true));
    case UpdateEntry(ct, e, _, options) =>
      EntryPaths(ct, e);
      SerializeEmpty(enc, OptionPairs(options, true));
    case DeleteEntry(ct, e, options) =>
      EntryPaths(ct, e);
      SerializeEmpty(enc, OptionPairs(options, true));
    case LocalizeEntry(ct, e, _, options) =>
      EntryPaths(ct, e);
      SerializeEmpty(enc, OptionPairs(options, false));
  }

  lemma OtherPathIsJoin(op: Operation, enc: string -> string)
    requires !OnEntries(op) && !OnContentTypes(op)
    ensures SpelledByPath(op, enc)
  {
    match op
    case GetAssets(query) => OtherPaths("");
    case GetAsset(uid) => OtherPaths(uid);
    case UploadAsset(_) => OtherPaths("");
    case GetEnvironments => OtherPaths("");
    case GetEnvironment(uid) => OtherPaths(uid);
    case PublishEntry(_, options) =>
      OtherPaths("");
      SerializeEmpty(enc, OptionPairs(options, true));
    case UnpublishEntry(_, options) =>
      OtherPaths("");
      SerializeEmpty(enc, OptionPairs(options, true));
    case GetLanguages => OtherPaths("");
  }

  lemma PlainSegments(op: Operation)
    requires PlainUids(op)
    ensures forall i :: 0 <= i < |PathSegments(op)| ==> PlainUid(PathSegments(op)[i])
  {
  }

  /** The endpoint table: with plain UIDs, the path of every endpoint splits
      into the operation's segments, each UID verbatim as one segment; a `?`
      follows exactly when the operation always adds one (`getEntries`,
      `getAssets`) or its query has pairs; and the query after it is the
      operation's pairs, serialized in order. */
  lemma EndpointShape(op: Operation, enc: string -> string)
    requires PlainUids(op)
    ensures var parts := SplitQuery(RouteOf(op, enc).endpoint);
      var q := QueryPairs(op);
      && SplitOn(parts.0, '/') == PathSegments(op)
      && (parts.1.Some? <==> op.GetEntries? || op.GetAssets? || (q.Some? && q.value != []))
      && (parts.1.Some? ==> parts.1.value == Serialize(enc, q.value))
  {
    var segments := PathSegments(op);
    PlainSegments(op);
    JoinPlain(segments);
    SplitJoin(segments);
    PathIsJoin(op, enc);
    var q := QueryPairs(op);
    if q.Some? {
      SplitQueryOf(Join(segments, "/"), Serialize(enc, q.value));
    } else {
      SplitQueryOf(Join(segments, "/"), "");
    }
  }

  /** Parsing the query of an endpoint gives back the operation's pairs, in
      order, when the encoder escapes `&` and `=`. */
  lemma EndpointQueryParses(op: Operation, enc: string -> string)
    requires PlainUids(op)
    requires forall s :: '&' !in enc(s) && '=' !in enc(s)
    ensures var parts := SplitQuery(RouteOf(op, enc).endpoint);
      parts.1.Some? ==> QueryPairs(op).Some? && Parse(parts.1.value) == Encoded(enc, QueryPairs(op).value)
  {
    EndpointShape(op, enc);
    if QueryPairs(op).Some? {
      ParseSerialize(enc, QueryPairs(op).value);
    }
  }
}
