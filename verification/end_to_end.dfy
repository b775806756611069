/** The two sides of the credential exchange together: the notebook client
    `workshop_setup.py` talking to the broker handler of
    `infrastructure/lambda/workshop_config.py`. The network hands the request's
    `Authorization` header to the handler as the event's only header and returns the
    handler's status and body. */
module EndToEnd {
  import opened PyBuiltins
  import opened WorkshopClient
  import WorkshopConfig
  import WorkshopSetup

  /** The headers the handler sees for a client request. */
  function EventHeaders(request: Request): WorkshopConfig.Headers {
    if "Authorization" in request.headers then [("Authorization", request.headers["Authorization"])] else []
  }

  /** The broker as the client's network: every request is answered with the
      handler's status code and body. */
  function Broker(settings: WorkshopConfig.Settings, secret: WorkshopConfig.SecretResult): Request -> Reply {
    (request: Request) =>
      var response := WorkshopConfig.Respond(WorkshopConfig.FirstAuthorization(EventHeaders(request)), settings, secret);
      Answered(response.statusCode, Object(response.body))
  }

  /** The secret holds a string without NUL characters under `key`. */
  predicate Textual(data: map<string, Value>, key: string) {
    key in data && data[key].Str? && '\0' !in data[key].s
  }

  /** A secret bundle whose fields the client can export: the four credentials are
      strings without NUL characters, and so is the `str()` of the port (which holds
      whenever the port is not itself a string). */
  predicate Exportable(data: map<string, Value>, settings: WorkshopConfig.Settings) {
    && Textual(data, "host") && Textual(data, "dbname")
    && Textual(data, "username") && Textual(data, "password")
    && '\0' !in PyStr(Get(data, "port"))
    && '\0' !in settings.stacApiEndpoint
    && '\0' !in settings.titilerPgstacApiEndpoint
    && '\0' !in settings.tipgApiEndpoint
  }

  lemma AuthorizationHeaderFound(value: string)
    ensures WorkshopConfig.FirstAuthorization([("Authorization", value)]) == Some(value)
  {
    assert Lower("Authorization") == "authorization";
  }

  /** The broker accepts its own token and answers 200 with the configuration body. */
  lemma {:induction false} BrokerAnswersBearer(url: string, token: string, settings: WorkshopConfig.Settings,
                                               data: map<string, Value>)
    requires settings.token == token && !Contains(token, WorkshopConfig.SCHEME)
    ensures Broker(settings, WorkshopConfig.Retrieved(data))(BearerRequest(url, token))
      == Answered(200, Object(WorkshopConfig.ConfigBody(data, settings)))
  {
    var request := BearerRequest(url, token);
    assert EventHeaders(request) == [("Authorization", WorkshopConfig.SCHEME + token)];
    AuthorizationHeaderFound(WorkshopConfig.SCHEME + token);
    WorkshopConfig.BearerTokenAccepted(token, settings);
  }

  /** Every one of the eight writes succeeds on the body built from an exportable
      secret. */
  lemma ConfigBodyWritable(data: map<string, Value>, settings: WorkshopConfig.Settings)
    requires Exportable(data, settings)
    ensures forall i :: 0 <= i < |WorkshopSetup.EXPORTS| ==>
      WriteError(WorkshopConfig.ConfigBody(data, settings), WorkshopSetup.EXPORTS[i].1).None?
  {
    var body := WorkshopConfig.ConfigBody(data, settings);
    assert body["pgport"] == Str(PyStr(Get(data, "port")));
  }

  /** A 200 answer whose body the eight writes all accept is returned as the
      configuration. */
  lemma AnswerAccepted(env: map<string, string>, body: map<string, Value>)
    requires forall i :: 0 <= i < |WorkshopSetup.EXPORTS| ==> WriteError(body, WorkshopSetup.EXPORTS[i].1).None?
    ensures Receive(env, Answered(200, Object(body)), WorkshopSetup.EXPORTS).0 == Configured(body)
  {
    assert ExportAll(env, body, WorkshopSetup.EXPORTS).error.None?;
  }

  /** A 200 answer whose body the eight writes all accept ends the root client's
      setup with that body as its configuration. */
  lemma SetupReceives(env: map<string, string>, projectId: string, token: string, stdin: seq<string>,
                      network: Request -> Reply, body: map<string, Value>)
    requires network(BearerRequest(WorkshopSetup.ConfigUrl(projectId), token)) == Answered(200, Object(body))
    requires forall i :: 0 <= i < |WorkshopSetup.EXPORTS| ==> WriteError(body, WorkshopSetup.EXPORTS[i].1).None?
    ensures var r := WorkshopSetup.SetupSpec(env, Some(projectId), Some(token), stdin, network);
      && r.sent == Some(BearerRequest(WorkshopSetup.ConfigUrl(projectId), token))
      && r.outcome == Configured(body)
  {
    AnswerAccepted(env, body);
  }

  /** ... and the `i`-th of the eight variables holds the body's string for its key. */
  lemma SetupWritesField(env: map<string, string>, projectId: string, token: string, stdin: seq<string>,
                         network: Request -> Reply, body: map<string, Value>, i: nat)
    requires network(BearerRequest(WorkshopSetup.ConfigUrl(projectId), token)) == Answered(200, Object(body))
    requires forall i :: 0 <= i < |WorkshopSetup.EXPORTS| ==> WriteError(body, WorkshopSetup.EXPORTS[i].1).None?
    requires i < |WorkshopSetup.EXPORTS|
    ensures var r := WorkshopSetup.SetupSpec(env, Some(projectId), Some(token), stdin, network);
      WorkshopSetup.EXPORTS[i].0 in r.env && body[WorkshopSetup.EXPORTS[i].1] == Str(r.env[WorkshopSetup.EXPORTS[i].0])
  {
    SetupReceives(env, projectId, token, stdin, network, body);
    WorkshopSetup.SuccessExportsEight(env, Some(projectId), Some(token), stdin, network, i);
  }

  /** The configuration body carries the secret's host and password as they are, and
      the `str()` of its port. */
  lemma ConfigBodyFields(data: map<string, Value>, settings: WorkshopConfig.Settings)
    requires Exportable(data, settings)
    ensures var body := WorkshopConfig.ConfigBody(data, settings);
      && body["pghost"] == data["host"]
      && body["pgport"] == Str(PyStr(Get(data, "port")))
      && body["pgpassword"] == data["password"]
  {
  }

  /** After a 200 answer whose body the writes accept, `PGHOST`, `PGPORT` and
      `PGPASSWORD` hold the body's strings. */
  lemma CredentialsExported(env: map<string, string>, projectId: string, token: string,
                            stdin: seq<string>, network: Request -> Reply, body: map<string, Value>)
    requires network(BearerRequest(WorkshopSetup.ConfigUrl(projectId), token)) == Answered(200, Object(body))
    requires forall i :: 0 <= i < |WorkshopSetup.EXPORTS| ==> WriteError(body, WorkshopSetup.EXPORTS[i].1).None?
    requires "pghost" in body && "pgport" in body && "pgpassword" in body
    ensures var r := WorkshopSetup.SetupSpec(env, Some(projectId), Some(token), stdin, network);
      && "PGHOST" in r.env && Str(r.env["PGHOST"]) == body["pghost"]
      && "PGPORT" in r.env && Str(r.env["PGPORT"]) == body["pgport"]
      && "PGPASSWORD" in r.env && Str(r.env["PGPASSWORD"]) == body["pgpassword"]
  {
    assert WorkshopSetup.EXPORTS[0] == ("PGHOST", "pghost");
    SetupWritesField(env, projectId, token, stdin, network, body, 0);
    assert WorkshopSetup.EXPORTS[1] == ("PGPORT", "pgport");
    SetupWritesField(env, projectId, token, stdin, network, body, 1);
    assert WorkshopSetup.EXPORTS[4] == ("PGPASSWORD", "pgpassword");
    SetupWritesField(env, projectId, token, stdin, network, body, 4);
  }

  /** Round trip, first half: with the broker's own token, the client sends one
      request and ends up with the broker's configuration body, unchanged. */
  lemma ClientReceivesSecret(env: map<string, string>, projectId: string, token: string,
                             stdin: seq<string>, settings: WorkshopConfig.Settings,
                             data: map<string, Value>)
    requires settings.token == token && !Contains(token, WorkshopConfig.SCHEME)
    requires Exportable(data, settings)
    ensures var r := WorkshopSetup.SetupSpec(env, Some(projectId), Some(token), stdin,
                                             Broker(settings, WorkshopConfig.Retrieved(data)));
      && r.sent == Some(BearerRequest(WorkshopSetup.ConfigUrl(projectId), token))
      && r.outcome == Configured(WorkshopConfig.ConfigBody(data, settings))
  {
    BrokerAnswersBearer(WorkshopSetup.ConfigUrl(projectId), token, settings, data);
    ConfigBodyWritable(data, settings);
    SetupReceives(env, projectId, token, stdin, Broker(settings, WorkshopConfig.Retrieved(data)), WorkshopConfig.ConfigBody(data, settings));
  }

  /** Round trip, second half: the environment then holds the secret's host and
      password as stored, and the `str()` of its port. */
  lemma ClientExportsCredentials(env: map<string, string>, projectId: string, token: string,
                                 stdin: seq<string>, settings: WorkshopConfig.Settings,
                                 data: map<string, Value>)
    requires settings.token == token && !Contains(token, WorkshopConfig.SCHEME)
    requires Exportable(data, settings)
    ensures var r := WorkshopSetup.SetupSpec(env, Some(projectId), Some(token), stdin,
                                             Broker(settings, WorkshopConfig.Retrieved(data)));
      && "PGHOST" in r.env && r.env["PGHOST"] == data["host"].s
      && "PGPORT" in r.env && r.env["PGPORT"] == PyStr(Get(data, "port"))
      && "PGPASSWORD" in r.env && r.env["PGPASSWORD"] == data["password"].s
  {
    var body := WorkshopConfig.ConfigBody(data, settings);
    BrokerAnswersBearer(WorkshopSetup.ConfigUrl(projectId), token, settings, data);
    ConfigBodyWritable(data, settings);
    ConfigBodyFields(data, settings);
    CredentialsExported(env, projectId, token, stdin, Broker(settings, WorkshopConfig.Retrieved(data)), body);
  }

  /** An integer port arrives in `PGPORT` as its decimal text, which reads back as
      the port. */
  lemma ClientExportsDecimalPort(env: map<string, string>, projectId: string, token: string,
                                 stdin: seq<string>, settings: WorkshopConfig.Settings,
                                 data: map<string, Value>, port: nat)
    requires settings.token == token && !Contains(token, WorkshopConfig.SCHEME)
    requires Exportable(data, settings)
    requires "port" in data && data["port"] == Int(port)
    ensures var r := WorkshopSetup.SetupSpec(env, Some(projectId), Some(token), stdin,
                                             Broker(settings, WorkshopConfig.Retrieved(data)));
      && "PGPORT" in r.env
      && r.env["PGPORT"] == NatToString(port)
      && ParseDecimal(NatToString(port)) == port
  {
    ClientExportsCredentials(env, projectId, token, stdin, settings, data);
    assert PyStr(Get(data, "port")) == NatToString(port);
    ParseNatToString(port);
  }

  /** With a token the broker refuses, the client raises `ValueError` and leaves
      the environment as it was. */
  lemma WrongTokenRaisesValueError(env: map<string, string>, projectId: string, token: string,
                                   stdin: seq<string>, settings: WorkshopConfig.Settings,
                                   secret: WorkshopConfig.SecretResult)
    requires WorkshopConfig.PresentedToken(WorkshopConfig.SCHEME + token) != settings.token
    ensures var r := WorkshopSetup.SetupSpec(env, Some(projectId), Some(token), stdin, Broker(settings, secret));
      && r.outcome == Failed(InvalidToken)
      && Kind(r.outcome.error) == ValueError
      && r.env == env
  {
    var request := BearerRequest(WorkshopSetup.ConfigUrl(projectId), token);
    assert EventHeaders(request) == [("Authorization", WorkshopConfig.SCHEME + token)];
    AuthorizationHeaderFound(WorkshopConfig.SCHEME + token);
  }
}
