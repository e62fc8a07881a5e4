/** `makeRequest` in index.js, with the HTTP client call replaced by a
    `transport` function from the request descriptor to what became of it:
    merging the configuration, resolving the base URL, building the headers
    and the request, and turning the outcome into the response data or the
    message of the error the function throws. */
module Requests {
  import opened JsValues
  import opened Regions

  datatype HttpMethod = GET | POST | PUT | DELETE

  /** The request configuration handed to the HTTP client (its
      `validateStatus` is the predicate `Accepted`). */
  datatype Request = Request(verb: HttpMethod, url: string, headers: Object, body: Option<Value>)

  /** What became of a request: the server answered with a status and data;
      the request went out and no answer came back; or the client failed
      before sending it, with an error message. */
  datatype Outcome =
    | Response(status: int, data: Value)
    | NoResponse
    | SetupFailure(message: string)

  /** The value of an environment variable, undefined when it is not set. */
  function EnvValue(env: map<string, string>, name: string): Value {
    if name in env then Str(env[name]) else Undefined
  }

  /** `defaultConfig`, built from the process environment. */
  function DefaultConfig(env: map<string, string>): (d: Object)
    ensures DistinctKeys(d)
    ensures Get(d, "region").Str? && Get(d, "region").s != ""
    ensures "CONTENTSTACK_REGION" !in env ==> Get(d, "region") == Str("NA")
  {
    var region := EnvValue(env, "CONTENTSTACK_REGION");
    [ ("region", if Truthy(region) then region else Str("NA")),
      ("apiKey", EnvValue(env, "CONTENTSTACK_API_KEY")),
      ("managementToken", EnvValue(env, "CONTENTSTACK_MANAGEMENT_TOKEN")),
      ("deliveryToken", EnvValue(env, "CONTENTSTACK_DELIVERY_TOKEN")) ]
  }

  /** `createHeaders(config)`. */
  function Headers(config: Object): Object {
    [ ("api_key", Get(config, "apiKey")),
      ("authorization", Get(config, "managementToken")),
      ("Content-Type", Str("application/json")) ]
  }

  /** `validateStatus`: the statuses the HTTP client resolves with rather
      than rejects. */
  predicate Accepted(status: int) {
    200 <= status && status < 500
  }

  /** The message of the error thrown for a failed response:
      `data?.error_message || data?.error || "Request failed with status N"`,
      as `new Error` converts it to a string. */
  function ErrorText(status: int, data: Value): string {
    var errorMessage := Prop(data, "error_message");
    var error := Prop(data, "error");
    if Truthy(errorMessage) then ToJsString(errorMessage)
    else if Truthy(error) then ToJsString(error)
    else "Request failed with status " + IntToString(status)
  }

  /** The request `makeRequest` hands to the HTTP client, or the message of
      the error it fails with before sending anything. */
  function RequestFor(verb: HttpMethod, endpoint: string, data: Value, config: Object, defaults: Object): Completion<Request> {
    RequestFrom(verb, endpoint, data, Spread(defaults, config))
  }

  /** The request built from the merged configuration. */
  function RequestFrom(verb: HttpMethod, endpoint: string, data: Value, merged: Object): Completion<Request> {
    match BaseUrl(Get(merged, "region"))
    case Threw(message) => Threw(message)
    case Ok(baseUrl) =>
      var body := if Truthy(data) && (verb == POST || verb == PUT) then Some(data) else None;
      Ok(Request(verb, baseUrl + endpoint, Headers(merged), body))
  }

  /** What the caller of `makeRequest` gets for an outcome of the HTTP call. */
  function Settle(outcome: Outcome): Completion<Value> {
    match outcome
    case Response(status, data) =>
      if 200 <= status < 400 then Ok(data) else Threw(ErrorText(status, data))
    case NoResponse => Threw("No response received from server")
    case SetupFailure(message) => Threw(message)
  }

  /** What `makeRequest(method, endpoint, data, config)` resolves with, or the
      message it rejects with. */
  function RequestResult(verb: HttpMethod, endpoint: string, data: Value, config: Object, defaults: Object,
                         transport: Request -> Outcome): Completion<Value> {
    match RequestFor(verb, endpoint, data, config, defaults)
    case Threw(message) => Threw(message)
    case Ok(request) => Settle(transport(request))
  }

  /** The request-building half of `makeRequest`: the configuration literal,
      then `data` set on it only for a POST or PUT with truthy data. */
  method BuildRequest(verb: HttpMethod, endpoint: string, data: Value, config: Object, defaults: Object)
    returns (r: Completion<Request>)
    ensures r == RequestFor(verb, endpoint, data, config, defaults)
  {
    var merged := Spread(defaults, config);
    var baseUrl := BaseUrl(Get(merged, "region"));
    if baseUrl.Threw? {
      return Threw(baseUrl.message);
    }
    var headers := Headers(merged);
    var request := Request(verb, baseUrl.value + endpoint, headers, None);
    if Truthy(data) && (verb == POST || verb == PUT) {
      request := request.(body := Some(data));
    }
    r := Ok(request);
  }

  /** What the `catch` block of `makeRequest` receives: an error carrying a
      response, one carrying only the request, or any other error. */
  datatype Caught = WithResponse(status: int, data: Value) | WithRequest | Plain(message: string)

  /** `makeRequest`: build the request, hand it to the HTTP client, return
      the data of a response below 400, and otherwise rethrow a single error
      from the `catch` block. */
  method MakeRequest(verb: HttpMethod, endpoint: string, data: Value, config: Object, defaults: Object,
                     transport: Request -> Outcome)
    returns (r: Completion<Value>)
    ensures r == RequestResult(verb, endpoint, data, config, defaults, transport)
  {
    var caught: Caught;
    var built := BuildRequest(verb, endpoint, data, config, defaults);
    assert RequestResult(verb, endpoint, data, config, defaults, transport)
        == if built.Threw? then Threw(built.message) else Settle(transport(built.value));
    if built.Threw? {
      caught := Plain(built.message);
    } else {
      match transport(built.value)
      case Response(status, body) =>
        if !Accepted(status) {
          caught := WithResponse(status, body);
        } else if status >= 400 {
          caught := Plain(ErrorText(status, body));
        } else {
          return Ok(body);
        }
      case NoResponse =>
        caught := WithRequest;
      case SetupFailure(message) =>
        caught := Plain(message);
    }
    match caught
    case WithResponse(status, body) =>
      r := Threw(ErrorText(status, body));
    case WithRequest =>
      r := Threw("No response received from server");
    case Plain(message) =>
      r := Threw(message);
  }

  /** The request goes to the resolved base URL followed by the endpoint,
      with exactly the three headers, whose credentials are the explicit
      configuration's where it has them and the defaults' otherwise. */
  lemma RequestShape(verb: HttpMethod, endpoint: string, data: Value, config: Object, defaults: Object)
    ensures var region := if HasKey(config, "region") then Get(config, "region") else Get(defaults, "region");
      var r := RequestFor(verb, endpoint, data, config, defaults);
      && (r.Ok? <==> BaseUrl(region).Ok?)
      && (r.Threw? ==> r.message == BaseUrl(region).message)
      && (r.Ok? ==> r.value.verb == verb && r.value.url == BaseUrl(region).value + endpoint)
      && (r.Ok? ==> r.value.headers == [
            ("api_key", if HasKey(config, "apiKey") then Get(config, "apiKey") else Get(defaults, "apiKey")),
            ("authorization", if HasKey(config, "managementToken") then Get(config, "managementToken")
                              else Get(defaults, "managementToken")),
            ("Content-Type", Str("application/json"))])
  {
    SpreadGet(defaults, config, "region");
    SpreadGet(defaults, config, "apiKey");
    SpreadGet(defaults, config, "managementToken");
  }

  /** A body goes out exactly when the data is truthy and the method is POST
      or PUT, and it is the data itself: a GET or DELETE never carries one,
      nor does a POST with null data. */
  lemma BodyRule(verb: HttpMethod, endpoint: string, data: Value, config: Object, defaults: Object)
    requires RequestFor(verb, endpoint, data, config, defaults).Ok?
    ensures var request := RequestFor(verb, endpoint, data, config, defaults).value;
      && (request.body.Some? <==> Truthy(data) && (verb == POST || verb == PUT))
      && (request.body.Some? ==> request.body.value == data)
  {
  }

  /** The delivery token never reaches a request: two configurations that
      differ only in it build the same request. */
  lemma DeliveryTokenUnused(verb: HttpMethod, endpoint: string, data: Value, c1: Object, c2: Object, defaults: Object)
    requires forall k :: k != "deliveryToken" ==> HasKey(c1, k) == HasKey(c2, k) && Get(c1, k) == Get(c2, k)
    ensures RequestFor(verb, endpoint, data, c1, defaults) == RequestFor(verb, endpoint, data, c2, defaults)
  {
    SameRead(defaults, c1, c2, "region");
    SameRead(defaults, c1, c2, "apiKey");
    SameRead(defaults, c1, c2, "managementToken");
    SameReadsSameRequest(verb, endpoint, data, Spread(defaults, c1), Spread(defaults, c2));
  }

  /** The request depends on the merged configuration only through its
      region and the two credentials. */
  lemma SameReadsSameRequest(verb: HttpMethod, endpoint: string, data: Value, m1: Object, m2: Object)
    requires Get(m1, "region") == Get(m2, "region")
    requires Get(m1, "apiKey") == Get(m2, "apiKey")
    requires Get(m1, "managementToken") == Get(m2, "managementToken")
    ensures RequestFrom(verb, endpoint, data, m1) == RequestFrom(verb, endpoint, data, m2)
  {
    assert Headers(m1) == Headers(m2);
  }

  lemma SameRead(defaults: Object, c1: Object, c2: Object, k: string)
    requires HasKey(c1, k) == HasKey(c2, k) && Get(c1, k) == Get(c2, k)
    ensures Get(Spread(defaults, c1), k) == Get(Spread(defaults, c2), k)
  {
    SpreadGet(defaults, c1, k);
    SpreadGet(defaults, c2, k);
  }

  /** A response resolves the call exactly when its status is in [200, 400),
      and then with the data unchanged; every other status rejects, whether
      the status comparison after the call or the HTTP client itself raised it. */
  lemma SettleResponse(status: int, data: Value)
    ensures Settle(Response(status, data)).Ok? <==> 200 <= status < 400
    ensures Settle(Response(status, data)).Ok? ==> Settle(Response(status, data)).value == data
  {
  }

  /** The message of a failed response: `error_message` when truthy, else
      `error` when truthy, each converted with `String` (so a number or an
      object is printed, and a non-empty string passed on verbatim); else the
      generic text with the status in decimal. */
  lemma FailureMessage(status: int, data: Value)
    requires !(200 <= status < 400)
    ensures var m := Settle(Response(status, data));
      var errorMessage, error := Prop(data, "error_message"), Prop(data, "error");
      && m.Threw?
      && (Truthy(errorMessage) ==> m.message == ToJsString(errorMessage))
      && (!Truthy(errorMessage) && Truthy(error) ==> m.message == ToJsString(error))
      && (!Truthy(errorMessage) && !Truthy(error) ==>
            m.message == "Request failed with status " + IntToString(status))
      && (errorMessage.Str? && errorMessage.s != "" ==> m.message == errorMessage.s)
      && (!Truthy(errorMessage) && error.Str? && error.s != "" ==> m.message == error.s)
  {
  }

  /** Failures without a response: a lost answer gives the fixed message, a
      failure before sending keeps its own message. */
  lemma SettleWithoutResponse(message: string)
    ensures Settle(NoResponse) == Threw("No response received from server")
    ensures Settle(SetupFailure(message)) == Threw(message)
  {
  }

  /** When the region does not resolve, nothing is sent: the call fails with
      the resolution error unchanged, whatever the transport would do. */
  lemma InvalidRegionSendsNothing(verb: HttpMethod, endpoint: string, data: Value, config: Object, defaults: Object,
                                  t1: Request -> Outcome, t2: Request -> Outcome)
    requires BaseUrl(Get(Spread(defaults, config), "region")).Threw?
    ensures RequestResult(verb, endpoint, data, config, defaults, t1) == RequestResult(verb, endpoint, data, config, defaults, t2)
    ensures RequestResult(verb, endpoint, data, config, defaults, t1) == Threw(BaseUrl(Get(Spread(defaults, config), "region")).message)
  {
  }

  /** An explicit `region: undefined` is not a missing region: the spread
      keeps it over the default, and the call fails on `toUpperCase` before
      anything is sent. */
  lemma UndefinedRegionOverrides(verb: HttpMethod, endpoint: string, data: Value, config: Object, defaults: Object,
                                 transport: Request -> Outcome)
    requires HasKey(config, "region") && Get(config, "region") == Undefined
    ensures RequestResult(verb, endpoint, data, config, defaults, transport)
         == Threw("Cannot read properties of undefined (reading 'toUpperCase')")
  {
    SpreadGet(defaults, config, "region");
  }
}
