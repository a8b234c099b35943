/** The fetch-based HTTP client (src/api/client/HttpClient.ts): URL building, headers,
    the bearer token, and the mapping of a response to a value or an `ApiError`. The
    module-level token is the field of a `Client`; `fetch` itself is a parameter. */
module HttpClient {
  import opened Wrappers
  import opened Text
  import opened Json
  import opened ApiErrors

  datatype HttpMethod = GET | POST | PUT | PATCH | DELETE

  /** `RequestOptions`; every optional member is an `Option`. */
  datatype RequestOptions = RequestOptions(
    verb: HttpMethod,
    url: string,
    body: Option<Json>,
    headers: Option<map<string, string>>,
    auth: Option<bool>,
    timeoutMs: Option<int>)

  /** Options with only a method and a url. */
  function Plain(verb: HttpMethod, url: string): (o: RequestOptions)
    ensures o.verb == verb && o.url == url
    ensures o.body.None? && o.headers.None? && o.auth.None? && o.timeoutMs.None?
  {
    RequestOptions(verb, url, None, None, None, None)
  }

  const BaseUrl := "http://10.0.2.2:5225/api"
  const DefaultTimeout := 15000
  const JsonType := "application/json"

  /** `buildUrl(url)`: anything starting with "http" is absolute; anything else is a
      path under the base URL, joined with exactly one slash. */
  function BuildUrl(url: string): (r: string)
    ensures StartsWith(url, "http") ==> r == url
    ensures !StartsWith(url, "http") && StartsWith(url, "/") ==> r == BaseUrl + url
    ensures !StartsWith(url, "http") && !StartsWith(url, "/") ==> r == BaseUrl + "/" + url
  {
    if StartsWith(url, "http") then url
    else if StartsWith(url, "/") then BaseUrl + url
    else BaseUrl + "/" + url
  }

  /** Building is idempotent: a built URL is absolute. */
  lemma BuildUrlIdempotent(url: string)
    ensures StartsWith(BuildUrl(url), "http")
    ensures BuildUrl(BuildUrl(url)) == BuildUrl(url)
  {
    var r := BuildUrl(url);
    if !StartsWith(url, "http") {
      assert r[..4] == BaseUrl[..4];
    }
  }

  /** A leading slash makes no difference to a relative path. */
  lemma BuildUrlSlashInsensitive(path: string)
    requires !StartsWith(path, "http") && !StartsWith(path, "/")
    ensures BuildUrl("/" + path) == BuildUrl(path)
  {
    var p := "/" + path;
    assert p[..1] == "/";
    assert BaseUrl + p == BaseUrl + "/" + path;
  }

  /** `tryParseJson(text)`: `parsed` is what `JSON.parse(text)` returns, or `None` when it
      throws. An empty body and unparsable text both give `null`. */
  function TryParseJson(text: string, parsed: Option<Json>): (j: Json)
    ensures text == "" ==> j == JNull
    ensures text != "" && parsed.Some? ==> j == parsed.value
    ensures parsed.None? ==> j == JNull
  {
    if text == "" then JNull else parsed.GetOr(JNull)
  }

  /** `json?.message` when it is a string. */
  function MessageField(json: Json): (m: Option<string>)
    ensures m.Some? <==> json.JObj? && "message" in json.fields && json.fields["message"].JStr?
    ensures m.Some? ==> json.fields["message"] == JStr(m.value)
  {
    if json.JObj? && "message" in json.fields && json.fields["message"].JStr?
    then Some(json.fields["message"].s)
    else None
  }

  /** The error message as written: `json?.message ?? text ?? \`HTTP ${status}\``. The
      body text is a string, never null or undefined, so the status fallback is never
      reached. */
  function ErrorMessageAsWritten(json: Json, text: string, status: int): (m: string)
    ensures MessageField(json).Some? ==> m == MessageField(json).value
    ensures MessageField(json).None? ==> m == text
  {
    match MessageField(json)
    case Some(message) => message
    case None => text
  }

  /** With an empty error body the message as written is empty, not "HTTP 500". */
  lemma EmptyBodyGivesEmptyMessage()
    ensures ErrorMessageAsWritten(TryParseJson("", None), "", 500) == ""
    ensures ErrorMessageAsWritten(TryParseJson("", None), "", 500) != "HTTP " + IntToString(500)
  {
  }

  /** The message as intended: the server's `message`, else the body text when there is
      any, else "HTTP <status>". */
  function ErrorMessage(json: Json, text: string, status: int): (m: string)
    ensures MessageField(json).Some? ==> m == MessageField(json).value
    ensures MessageField(json).None? && text != "" ==> m == text
    ensures MessageField(json).None? && text == "" ==> m == "HTTP " + IntToString(status)
    ensures MessageField(json).None? ==> m != ""
  {
    match MessageField(json)
    case Some(message) => message
    case None => if text != "" then text else "HTTP " + IntToString(status)
  }

  /** The message as written and the intended one differ only on a reply with no message
      field and an empty body. */
  lemma AsWrittenDiffersOnlyOnEmptyBody(json: Json, text: string, status: int)
    ensures ErrorMessageAsWritten(json, text, status) == ErrorMessage(json, text, status) <==>
              MessageField(json).Some? || text != ""
  {
    if MessageField(json).None? && text == "" {
      assert |ErrorMessage(json, text, status)| >= 5;
    }
  }

  /** The fallback names the status it stands for: different statuses give different
      messages. */
  lemma StatusFallbackDistinguishes(json: Json, status1: int, status2: int)
    requires MessageField(json).None?
    requires ErrorMessage(json, "", status1) == ErrorMessage(json, "", status2)
    ensures status1 == status2
  {
    var p := "HTTP ";
    assert (p + IntToString(status1))[|p|..] == IntToString(status1);
    assert (p + IntToString(status2))[|p|..] == IntToString(status2);
    IntToStringInjective(status1, status2);
  }

  /** `json ?? text ?? null`: the parsed body, else the raw text. */
  function ErrorData(json: Json, text: string): (d: Json)
    ensures json != JNull ==> d == json
    ensures json == JNull ==> d == JStr(text)
  {
    if json != JNull then json else JStr(text)
  }

  /** What `fetch` answers with: the status, the body text, and what `JSON.parse` makes
      of the text (`None` when it throws). */
  datatype RawResponse = RawResponse(status: int, text: string, parsed: Option<Json>)

  /** `response.ok` */
  predicate IsOk(status: int) {
    200 <= status <= 299
  }

  /** The arguments handed to `fetch`, with the abort timer's delay. */
  datatype FetchInit = FetchInit(
    url: string,
    verb: HttpMethod,
    headers: map<string, string>,
    body: Option<Json>,
    timeoutMs: int)

  /** How `httpRequest` ends. */
  datatype HttpResult =
    | Success(data: Json)                     // resolves with the parsed body
    | Failure(error: ApiError)                // throws an ApiError
    | NetworkFailure(reason: Option<string>)  // the fetch itself rejected (or was aborted)

  /** Whether the bearer token is attached: the request does not opt out and the token
      is truthy. */
  predicate SendsToken(auth: Option<bool>, token: Option<string>) {
    auth != Some(false) && token.Some? && token.value != ""
  }

  /** The headers of a request, key by key: `Accept` defaults to JSON unless the caller
      sets it, `Content-Type` is JSON whenever a body is given (overriding the caller),
      `Authorization` carries the token whenever it is sent (overriding the caller), and
      every other caller header passes through. */
  ghost predicate HeadersFor(headers: map<string, string>, custom: map<string, string>,
                             hasBody: bool, sendsToken: bool, token: string)
  {
    && headers.Keys == custom.Keys + {"Accept"} + (if hasBody then {"Content-Type"} else {})
                       + (if sendsToken then {"Authorization"} else {})
    && headers["Accept"] == (if "Accept" in custom then custom["Accept"] else JsonType)
    && (hasBody ==> headers["Content-Type"] == JsonType)
    && (sendsToken ==> headers["Authorization"] == "Bearer " + token)
    && (forall k :: k in custom && k != "Accept" && !(hasBody && k == "Content-Type") &&
                    !(sendsToken && k == "Authorization") ==>
                      headers[k] == custom[k])
  }

  /** The header description leaves no freedom: two header maps that both meet it are the
      same map. */
  lemma HeadersForUnique(h1: map<string, string>, h2: map<string, string>,
                         custom: map<string, string>, hasBody: bool, sendsToken: bool, token: string)
    requires HeadersFor(h1, custom, hasBody, sendsToken, token)
    requires HeadersFor(h2, custom, hasBody, sendsToken, token)
    ensures h1 == h2
  {
    forall k | k in h1.Keys ensures h1[k] == h2[k] {
      if k == "Accept" || (hasBody && k == "Content-Type") || (sendsToken && k == "Authorization") {
      } else {
        assert k in custom;
      }
    }
  }

  class Client {
    /** The module-level `authToken`. */
    var authToken: Option<string>

    constructor()
      ensures authToken == None
    {
      authToken := None;
    }

    /** `setAuthToken(token)` */
    method SetAuthToken(token: Option<string>)
      modifies this
      ensures authToken == token
    {
      authToken := token;
    }

    /** The token text that would be sent ("" when there is none). */
    function Token(): string
      reads this
    {
      authToken.GetOr("")
    }

    /** The header object, built step by step as `httpRequest` builds it. */
    method BuildHeaders(custom: Option<map<string, string>>, hasBody: bool, auth: Option<bool>)
      returns (headers: map<string, string>)
      ensures HeadersFor(headers, custom.GetOr(map[]), hasBody, SendsToken(auth, authToken), Token())
    {
      var given := custom.GetOr(map[]);
      headers := map["Accept" := JsonType] + given;
      if hasBody {
        headers := headers["Content-Type" := JsonType];
      }
      if auth != Some(false) && authToken.Some? && authToken.value != "" {
        headers := headers["Authorization" := "Bearer " + authToken.value];
      }
    }

    /** `httpRequest(options)`: the request handed to `fetch`, and how the call ends once
        `fetch` has answered with `fetched`. */
    method Request(options: RequestOptions, fetched: Outcome<RawResponse>)
      returns (init: FetchInit, r: HttpResult)
      ensures init.url == BuildUrl(options.url) && init.verb == options.verb
      ensures init.timeoutMs == options.timeoutMs.GetOr(DefaultTimeout)
      ensures HeadersFor(init.headers, options.headers.GetOr(map[]), options.body.Some?,
                         SendsToken(options.auth, authToken), Token())
      ensures init.body.Some? <==> options.body.Some? && Truthy(options.body.value)
      ensures init.body.Some? ==> init.body == options.body
      ensures r.NetworkFailure? <==> fetched.Err?
      ensures r.NetworkFailure? ==> r.reason == fetched.reason
      ensures r.Success? <==> fetched.Ok? && IsOk(fetched.value.status)
      ensures r.Success? ==> r.data == TryParseJson(fetched.value.text, fetched.value.parsed)
      ensures r.Failure? ==>
                var resp := fetched.value;
                var json := TryParseJson(resp.text, resp.parsed);
                && r.error.name == "ApiError"
                && r.error.status == Some(resp.status)
                && r.error.url == init.url
                && r.error.message == ErrorMessageAsWritten(json, resp.text, resp.status)
                && r.error.data == ErrorData(json, resp.text)
    {
      var timeout := options.timeoutMs.GetOr(DefaultTimeout);
      var headers := BuildHeaders(options.headers, options.body.Some?, options.auth);
      var url := BuildUrl(options.url);
      var body := if options.body.Some? && Truthy(options.body.value) then options.body else None;
      init := FetchInit(url, options.verb, headers, body, timeout);
      match fetched {
        case Err(reason) =>
          r := NetworkFailure(reason);
        case Ok(response) =>
          var json := TryParseJson(response.text, response.parsed);
          if !IsOk(response.status) {
            r := Failure(NewApiError(ApiErrorParams(
              ErrorMessageAsWritten(json, response.text, response.status),
              Some(response.status), url, Some(ErrorData(json, response.text)))));
          } else {
            r := Success(json);
          }
      }
    }
  }

  /** A body that is given but falsy (`0`, `""`, `false`, `null`) is announced as JSON but
      not sent. */
  method FalsyBodyAnnouncedNotSent(client: Client, verb: HttpMethod, url: string, body: Json,
                                   fetched: Outcome<RawResponse>)
    returns (init: FetchInit)
    requires !Truthy(body)
    ensures init.body.None?
    ensures "Content-Type" in init.headers && init.headers["Content-Type"] == JsonType
  {
    var r;
    init, r := client.Request(RequestOptions(verb, url, Some(body), None, None, None), fetched);
  }
}
