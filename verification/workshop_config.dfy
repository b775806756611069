/** The credential-broker Lambda handler (`infrastructure/lambda/workshop_config.py`).

    A request is accepted when its first `Authorization` header (name compared
    case-insensitively) starts with `"Bearer "` and, once every `"Bearer "` is
    removed from it, equals the configured token. Only then is the secret store
    consulted; its bundle is renamed into the `pg*` keys and returned with the three
    configured API endpoints. Every response is JSON with a permissive CORS header.

    The secret store, the import-time environment and JSON encoding are outside the
    model: the store's answer is a parameter, the environment a map, and a response
    body is a map of JSON scalars rather than the text `json.dumps` makes of it. */
module WorkshopConfig {
  import opened PyBuiltins

  /** Request headers in the order the event dictionary lists them. */
  type Headers = seq<(string, string)>

  /** What `event.get("headers", {})` finds: no entry, an explicit `null`, or headers. */
  datatype HeaderField = Absent | NullHeaders | Present(entries: Headers)

  datatype Event = Event(headers: HeaderField)

  /** The secret store's answer for the configured secret: the parsed JSON object of
      `SecretString`, or any failure (the call raised, the string was not JSON, or it
      was JSON but not an object). */
  datatype SecretResult = Retrieved(data: map<string, Value>) | RetrievalFailed

  /** The module-level configuration read from the Lambda's environment at import. */
  datatype Settings = Settings(
    secretArn: string,
    token: string,
    stacApiEndpoint: string,
    titilerPgstacApiEndpoint: string,
    tipgApiEndpoint: string)

  datatype Response = Response(statusCode: int, headers: map<string, string>, body: map<string, Value>)

  /** A handler invocation either returns a response or raises out of the handler. */
  datatype Invocation = Returned(response: Response) | Raised

  const SCHEME := "Bearer "
  const AUTHORIZATION := "authorization"
  const MISSING_HEADER := "Missing or invalid Authorization header"
  const INVALID_TOKEN := "Invalid token"
  const RETRIEVAL_ERROR := "Failed to retrieve configuration"

  /** The two headers every response carries. */
  const JSON_CORS: map<string, string> :=
    map["Content-Type" := "application/json", "Access-Control-Allow-Origin" := "*"]

  /** The eight keys of a successful response body. */
  const CONFIG_KEYS: set<string> :=
    {"pghost", "pgport", "pgdatabase", "pguser", "pgpassword",
     "stac_api_endpoint", "titiler_pgstac_api_endpoint", "tipg_api_endpoint"}

  // ---------------------------------------------------------------------------
  // Configuration read at import

  /** The module's import: `PGSTAC_SECRET_ARN` and `WORKSHOP_TOKEN` must be set
      (indexing raises otherwise and the function never becomes ready); the three
      endpoints default to the empty string. */
  function LoadSettings(env: map<string, string>): (r: Option<Settings>)
    ensures r.Some? <==> "PGSTAC_SECRET_ARN" in env && "WORKSHOP_TOKEN" in env
    ensures r.Some? ==> r.value.secretArn == env["PGSTAC_SECRET_ARN"] && r.value.token == env["WORKSHOP_TOKEN"]
  {
    if "PGSTAC_SECRET_ARN" in env && "WORKSHOP_TOKEN" in env then
      Some(Settings(
        env["PGSTAC_SECRET_ARN"],
        env["WORKSHOP_TOKEN"],
        EnvGet(env, "STAC_API_ENDPOINT", ""),
        EnvGet(env, "TITILER_PGSTAC_API_ENDPOINT", ""),
        EnvGet(env, "TIPG_API_ENDPOINT", "")))
    else None
  }

  // ---------------------------------------------------------------------------
  // Header lookup

  predicate IsAuthorizationName(name: string) {
    Lower(name) == AUTHORIZATION
  }

  /** The value of the first header whose name lower-cases to `authorization`. */
  function FirstAuthorization(headers: Headers): (auth: Option<string>)
    ensures auth.None? <==> forall i :: 0 <= i < |headers| ==> !IsAuthorizationName(headers[i].0)
    ensures auth.Some? ==>
      exists i :: 0 <= i < |headers| && IsAuthorizationName(headers[i].0) && headers[i].1 == auth.value
                  && forall j :: 0 <= j < i ==> !IsAuthorizationName(headers[j].0)
  {
    if headers == [] then None
    else if IsAuthorizationName(headers[0].0) then Some(headers[0].1)
    else
      var rest := FirstAuthorization(headers[1..]);
      assert forall i :: 1 <= i < |headers| ==> headers[i] == headers[1..][i - 1];
      rest
  }

  /** The loop that scans the headers in order and stops at the first match. */
  method FindAuthorization(headers: Headers) returns (auth: Option<string>)
    ensures auth == FirstAuthorization(headers)
  {
    auth := None;
    var i := 0;
    while i < |headers|
      invariant 0 <= i <= |headers|
      invariant FirstAuthorization(headers) == FirstAuthorization(headers[i..])
      invariant auth.None?
    {
      var (key, value) := headers[i];
      if Lower(key) == AUTHORIZATION {
        auth := Some(value);
        break;
      }
      assert headers[i..][1..] == headers[i + 1..];
      i := i + 1;
    }
  }

  /** Renaming a header to another spelling of the same lower-case name does not
      change what the lookup finds. */
  lemma {:induction false} LookupIgnoresCase(headers: Headers, i: nat, name: string)
    requires i < |headers| && Lower(name) == Lower(headers[i].0)
    ensures FirstAuthorization(headers[i := (name, headers[i].1)]) == FirstAuthorization(headers)
  {
    var renamed := headers[i := (name, headers[i].1)];
    if i > 0 {
      assert renamed[1..] == headers[1..][i - 1 := (name, headers[1..][i - 1].1)];
      LookupIgnoresCase(headers[1..], i - 1, name);
    }
  }

  // ---------------------------------------------------------------------------
  // Validation and response assembly

  /** The header passes the first check: present, non-empty, and starting with the
      case-sensitive scheme `"Bearer "`. */
  predicate WellFormed(auth: Option<string>) {
    auth.Some? && auth.value != "" && StartsWith(auth.value, SCHEME)
  }

  /** The token compared with the configured one: the header with every
      `"Bearer "` removed, not only the leading one. */
  function PresentedToken(header: string): string {
    RemoveAll(header, SCHEME)
  }

  predicate Accepted(auth: Option<string>, token: string) {
    WellFormed(auth) && PresentedToken(auth.value) == token
  }

  function ErrorBody(message: string): map<string, Value> {
    map["error" := Str(message)]
  }

  /** The success body: the secret's fields under their `pg*` names (`port` turned
      into its `str`), then the three configured endpoints. The port and the
      endpoints are always strings; the four credentials are passed on as the
      secret holds them. */
  function ConfigBody(data: map<string, Value>, settings: Settings): (r: map<string, Value>)
    ensures r.Keys == CONFIG_KEYS
    ensures r["pgport"].Str? && r["stac_api_endpoint"].Str?
    ensures r["titiler_pgstac_api_endpoint"].Str? && r["tipg_api_endpoint"].Str?
  {
    map[
      "pghost" := Get(data, "host"),
      "pgport" := Str(PyStr(Get(data, "port"))),
      "pgdatabase" := Get(data, "dbname"),
      "pguser" := Get(data, "username"),
      "pgpassword" := Get(data, "password"),
      "stac_api_endpoint" := Str(settings.stacApiEndpoint),
      "titiler_pgstac_api_endpoint" := Str(settings.titilerPgstacApiEndpoint),
      "tipg_api_endpoint" := Str(settings.tipgApiEndpoint)]
  }

  /** Everything after the header lookup. The secret store's answer is used only on
      the accepted path. */
  function Respond(auth: Option<string>, settings: Settings, secret: SecretResult): (r: Response)
    ensures r.headers == JSON_CORS
    ensures r.statusCode in {200, 401, 500}
    ensures r.statusCode == 200 <==> Accepted(auth, settings.token) && secret.Retrieved?
    ensures r.statusCode == 401 <==> !Accepted(auth, settings.token)
    ensures r.statusCode != 200 ==> r.body.Keys == {"error"}
    ensures r.statusCode == 200 ==> r.body.Keys == CONFIG_KEYS
  {
    if !WellFormed(auth) then
      Response(401, JSON_CORS, ErrorBody(MISSING_HEADER))
    else if PresentedToken(auth.value) != settings.token then
      Response(401, JSON_CORS, ErrorBody(INVALID_TOKEN))
    else
      match secret
      case RetrievalFailed => Response(500, JSON_CORS, ErrorBody(RETRIEVAL_ERROR))
      case Retrieved(data) => Response(200, JSON_CORS, ConfigBody(data, settings))
  }

  /** The handler as a function of the event, the configuration and the store. */
  function Handle(event: Event, settings: Settings, secret: SecretResult): (r: Invocation)
    ensures r.Raised? <==> event.headers.NullHeaders?
  {
    match event.headers
    case Absent => Returned(Respond(None, settings, secret))
    case NullHeaders => Raised
    case Present(entries) => Returned(Respond(FirstAuthorization(entries), settings, secret))
  }

  /** `handler(event, context)`. */
  method Handler(event: Event, settings: Settings, secret: SecretResult) returns (r: Invocation)
    ensures r == Handle(event, settings, secret)
  {
    var auth: Option<string>;
    match event.headers {
      case Absent =>
        auth := None;
      case NullHeaders =>
        return Raised;
      case Present(entries) =>
        auth := FindAuthorization(entries);
    }
    r := Returned(Respond(auth, settings, secret));
  }

  // ---------------------------------------------------------------------------
  // Properties

  /** An event without `headers` is answered like one with an empty header list. */
  lemma AbsentHeadersAsEmpty(settings: Settings, secret: SecretResult)
    ensures Handle(Event(Absent), settings, secret) == Handle(Event(Present([])), settings, secret)
    ensures Handle(Event(Absent), settings, secret).response.statusCode == 401
  {
  }

  /** A missing, empty or wrongly-prefixed header gives exactly the "missing or
      invalid" 401, and nothing else gives it. */
  lemma MalformedHeaderRejected(auth: Option<string>, settings: Settings, secret: SecretResult)
    ensures Respond(auth, settings, secret) == Response(401, JSON_CORS, ErrorBody(MISSING_HEADER))
      <==> !WellFormed(auth)
  {
    if WellFormed(auth) {
      assert ErrorBody(INVALID_TOKEN)["error"] != ErrorBody(MISSING_HEADER)["error"];
      assert ErrorBody(RETRIEVAL_ERROR)["error"] != ErrorBody(MISSING_HEADER)["error"];
    }
  }

  /** A well-formed header whose stripped token differs from the configured one
      gives exactly the "invalid token" 401, and nothing else gives it. */
  lemma WrongTokenRejected(auth: Option<string>, settings: Settings, secret: SecretResult)
    ensures Respond(auth, settings, secret) == Response(401, JSON_CORS, ErrorBody(INVALID_TOKEN))
      <==> WellFormed(auth) && PresentedToken(auth.value) != settings.token
  {
    assert ErrorBody(INVALID_TOKEN)["error"] != ErrorBody(MISSING_HEADER)["error"];
    assert ErrorBody(RETRIEVAL_ERROR)["error"] != ErrorBody(INVALID_TOKEN)["error"];
  }

  /** A rejected request is answered without the secret store: any two answers of
      the store give the same 401, whose body holds only the error message. */
  lemma RejectionIgnoresSecrets(auth: Option<string>, settings: Settings, s1: SecretResult, s2: SecretResult)
    requires !Accepted(auth, settings.token)
    ensures Respond(auth, settings, s1) == Respond(auth, settings, s2)
    ensures Respond(auth, settings, s1).statusCode == 401
    ensures Respond(auth, settings, s1).body.Values <= {Str(MISSING_HEADER), Str(INVALID_TOKEN)}
  {
  }

  /** A failed retrieval gives the generic 500, carrying nothing from the store. */
  lemma RetrievalFailureIsGeneric(auth: Option<string>, settings: Settings)
    requires Accepted(auth, settings.token)
    ensures Respond(auth, settings, RetrievalFailed) == Response(500, JSON_CORS, ErrorBody(RETRIEVAL_ERROR))
  {
  }

  /** The success body renames the secret's fields and carries the endpoints. */
  lemma SuccessBodyRenames(auth: Option<string>, settings: Settings, data: map<string, Value>)
    requires Accepted(auth, settings.token)
    ensures var r := Respond(auth, settings, Retrieved(data));
      && r.statusCode == 200
      && |r.body| == 8
      && r.body["pghost"] == Get(data, "host")
      && r.body["pgdatabase"] == Get(data, "dbname")
      && r.body["pguser"] == Get(data, "username")
      && r.body["pgpassword"] == Get(data, "password")
      && r.body["pgport"] == Str(PyStr(Get(data, "port")))
      && r.body["stac_api_endpoint"] == Str(settings.stacApiEndpoint)
      && r.body["titiler_pgstac_api_endpoint"] == Str(settings.titilerPgstacApiEndpoint)
      && r.body["tipg_api_endpoint"] == Str(settings.tipgApiEndpoint)
  {
    var r := Respond(auth, settings, Retrieved(data));
    assert |CONFIG_KEYS| == 8;
    assert r.body.Keys == CONFIG_KEYS;
  }

  /** A numeric port comes back as its decimal text, which reads back as the port. */
  lemma PortAsDecimalText(auth: Option<string>, settings: Settings, data: map<string, Value>, port: nat)
    requires Accepted(auth, settings.token)
    requires "port" in data && data["port"] == Int(port)
    ensures var p := Respond(auth, settings, Retrieved(data)).body["pgport"];
      && p.Str?
      && (forall k :: 0 <= k < |p.s| ==> IsDigit(p.s[k]))
      && ParseDecimal(p.s) == port
  {
    ParseNatToString(port);
  }

  /** The endpoints of a success body are the ones set in the Lambda's
      environment, or the empty string when unset. */
  lemma EndpointsFromEnvironment(env: map<string, string>, auth: Option<string>, data: map<string, Value>)
    requires LoadSettings(env).Some?
    requires Accepted(auth, LoadSettings(env).value.token)
    ensures var b := Respond(auth, LoadSettings(env).value, Retrieved(data)).body;
      && b["stac_api_endpoint"] == Str(if "STAC_API_ENDPOINT" in env then env["STAC_API_ENDPOINT"] else "")
      && b["titiler_pgstac_api_endpoint"]
         == Str(if "TITILER_PGSTAC_API_ENDPOINT" in env then env["TITILER_PGSTAC_API_ENDPOINT"] else "")
      && b["tipg_api_endpoint"] == Str(if "TIPG_API_ENDPOINT" in env then env["TIPG_API_ENDPOINT"] else "")
  {
  }

  /** A client that sends `"Bearer " + token` is accepted whenever the token itself
      does not contain `"Bearer "`. */
  lemma {:induction false} BearerTokenAccepted(token: string, settings: Settings)
    requires settings.token == token && !Contains(token, SCHEME)
    ensures Accepted(Some(SCHEME + token), settings.token)
  {
    RemoveAllLeading(SCHEME, token);
    RemoveAllAbsent(token, SCHEME);
  }

  /** Every `"Bearer "` is removed, not only the scheme: a repeated scheme is
      accepted too. */
  lemma {:induction false} RepeatedSchemeAccepted(token: string, settings: Settings)
    requires settings.token == token && !Contains(token, SCHEME)
    ensures Accepted(Some(SCHEME + SCHEME + token), settings.token)
  {
    RemoveAllLeading(SCHEME, SCHEME + token);
    assert SCHEME + SCHEME + token == SCHEME + (SCHEME + token);
    BearerTokenAccepted(token, settings);
  }

  /** A configured token that itself contains `"Bearer "` is refused even when the
      client sends exactly `"Bearer " + token`: the removal also eats the token's own
      occurrence, so what is compared is shorter than the token. */
  lemma {:induction false} TokenWithSchemeRefused(settings: Settings, secret: SecretResult)
    requires Contains(settings.token, SCHEME)
    ensures Respond(Some(SCHEME + settings.token), settings, secret).statusCode == 401
  {
    RemoveAllLeading(SCHEME, settings.token);
    RemoveAllPresent(settings.token, SCHEME);
  }
}
