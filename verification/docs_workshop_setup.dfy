/** The documentation-site client `docs/workshop_setup.py`: when the five `PG*`
    variables are already all set it returns them without any request; otherwise
    it resolves the token, GETs the configured endpoint with it, and on a 2xx
    answer exports the five database values. */
module DocsWorkshopSetup {
  import opened PyBuiltins
  import opened WorkshopClient

  const DEFAULT_ENDPOINT := "https://workshop-config.eoapi.dev"

  /** The five database variables, in the order the source lists them. */
  const PG_VARS: seq<string> := ["PGHOST", "PGPORT", "PGDATABASE", "PGUSER", "PGPASSWORD"]

  /** The five writes: variable name, then the configuration key it is read from. */
  const EXPORTS: seq<(string, string)> := [
    ("PGHOST", "pghost"),
    ("PGPORT", "pgport"),
    ("PGDATABASE", "pgdatabase"),
    ("PGUSER", "pguser"),
    ("PGPASSWORD", "pgpassword")]

  /** `all(var in os.environ for var in pg_vars)`. */
  predicate AllPgVarsSet(env: map<string, string>) {
    forall i :: 0 <= i < |PG_VARS| ==> PG_VARS[i] in env
  }

  /** The mapping returned by the short-circuit: the five variables under their
      lower-case keys, i.e. the inverse of the five writes. */
  function ExistingConfig(env: map<string, string>): (r: map<string, Value>)
    requires AllPgVarsSet(env)
    ensures forall i :: 0 <= i < |EXPORTS| ==>
      EXPORTS[i].0 in env && EXPORTS[i].1 in r && r[EXPORTS[i].1] == Str(env[EXPORTS[i].0])
  {
    assert PG_VARS[0] in env && PG_VARS[1] in env && PG_VARS[2] in env && PG_VARS[3] in env && PG_VARS[4] in env;
    map[
      "pghost" := Str(env["PGHOST"]),
      "pgport" := Str(env["PGPORT"]),
      "pgdatabase" := Str(env["PGDATABASE"]),
      "pguser" := Str(env["PGUSER"]),
      "pgpassword" := Str(env["PGPASSWORD"])]
  }

  /** `os.environ.get("CONFIG_API_ENDPOINT", "https://workshop-config.eoapi.dev")`. */
  function ConfigEndpoint(env: map<string, string>): (url: string)
    ensures "CONFIG_API_ENDPOINT" in env ==> url == env["CONFIG_API_ENDPOINT"]
    ensures "CONFIG_API_ENDPOINT" !in env ==> url == DEFAULT_ENDPOINT
  {
    EnvGet(env, "CONFIG_API_ENDPOINT", DEFAULT_ENDPOINT)
  }

  /** `setup(token)` as a function of the environment, the input lines and the
      network. */
  function SetupSpec(env: map<string, string>, token: Option<string>, stdin: seq<string>,
                     network: Request -> Reply): (r: Run)
    ensures AllPgVarsSet(env) ==> r == Run(Configured(ExistingConfig(env)), env, None)
    ensures r.sent.None? && r.outcome != Failed(InputClosed) <==> AllPgVarsSet(env)
    ensures r.sent.None? ==> r.env == env
    ensures r.sent.Some? ==> r.sent.value.url == ConfigEndpoint(env)
    ensures forall name :: name !in Names(EXPORTS) ==>
      (name in r.env <==> name in env) && (name in env ==> r.env[name] == env[name])
  {
    if AllPgVarsSet(env) then Run(Configured(ExistingConfig(env)), env, None)
    else
      match ResolveToken(token, env, stdin)
      case NoInput => Run(Failed(InputClosed), env, None)
      case Resolved(tok, _) =>
        var request := BearerRequest(ConfigEndpoint(env), tok);
        var (outcome, env') := Receive(env, network(request), EXPORTS);
        Run(outcome, env', Some(request))
  }

  /** The five lines `os.environ[NAME] = config[key]`, in order. */
  method ExportCredentials(os: Environ, config: map<string, Value>) returns (err: Option<string>)
    modifies os
    ensures Exported(os.vars, err) == ExportAll(old(os.vars), config, EXPORTS)
  {
    ghost var env0 := os.vars;

    err := Export(os, "PGHOST", config, "pghost");
    if err.Some? { return; }
    assert ExportAll(env0, config, EXPORTS) == ExportAll(os.vars, config, EXPORTS[1..]);
    err := Export(os, "PGPORT", config, "pgport");
    if err.Some? { return; }
    assert ExportAll(env0, config, EXPORTS) == ExportAll(os.vars, config, EXPORTS[2..]);
    err := Export(os, "PGDATABASE", config, "pgdatabase");
    if err.Some? { return; }
    assert ExportAll(env0, config, EXPORTS) == ExportAll(os.vars, config, EXPORTS[3..]);
    err := Export(os, "PGUSER", config, "pguser");
    if err.Some? { return; }
    assert ExportAll(env0, config, EXPORTS) == ExportAll(os.vars, config, EXPORTS[4..]);
    err := Export(os, "PGPASSWORD", config, "pgpassword");
    if err.Some? { return; }
    assert ExportAll(env0, config, EXPORTS) == ExportAll(os.vars, config, EXPORTS[5..]);
  }

  /** `setup(token)`. */
  method Setup(os: Environ, token: Option<string>, stdin: seq<string>, network: Request -> Reply)
    returns (outcome: Outcome, sent: Option<Request>)
    modifies os
    ensures Run(outcome, os.vars, sent) == SetupSpec(old(os.vars), token, stdin, network)
  {
    if AllPgVarsSet(os.vars) {
      return Configured(ExistingConfig(os.vars)), None;
    }
    var url := ConfigEndpoint(os.vars);
    var tok := GetToken(os, token, stdin);
    if tok.NoInput? {
      return Failed(InputClosed), None;
    }

    var request := BearerRequest(url, tok.value);
    sent := Some(request);
    var reply := network(request);
    var error := FetchError(reply);
    if error.Some? {
      return Failed(error.value), sent;
    }
    var config := reply.body.fields;
    var err := ExportCredentials(os, config);
    if err.Some? {
      return Failed(Unexpected(err.value)), sent;
    }
    outcome := Configured(config);
  }

  // ---------------------------------------------------------------------------
  // Properties

  /** The short-circuit is taken only when all five variables are present: with
      any one of them missing, a request is sent unless the token prompt meets end
      of input. */
  lemma MissingVariableForcesRequest(env: map<string, string>, token: Option<string>, stdin: seq<string>,
                                     network: Request -> Reply, missing: nat)
    requires missing < |PG_VARS| && PG_VARS[missing] !in env
    ensures var r := SetupSpec(env, token, stdin, network);
      r.sent.Some? || r.outcome == Failed(InputClosed)
  {
  }

  /** No variable is written twice. */
  lemma ExportNamesDistinct()
    ensures forall a, b :: 0 <= a < b < |EXPORTS| ==> EXPORTS[a].0 != EXPORTS[b].0
  {
  }

  /** The request goes to the configured endpoint with `Bearer <resolved token>`
      and a 10-second timeout. */
  lemma RequestCarriesToken(env: map<string, string>, token: Option<string>, stdin: seq<string>,
                            network: Request -> Reply)
    requires SetupSpec(env, token, stdin, network).sent.Some?
    ensures ResolveToken(token, env, stdin).Resolved?
    ensures SetupSpec(env, token, stdin, network).sent
      == Some(Request(ConfigEndpoint(env), map["Authorization" := "Bearer " + ResolveToken(token, env, stdin).value], 10))
  {
  }

  /** When the request itself fails (an error status, a transport failure, any
      other exception, or a body that is not an object), the mapped error is raised,
      a `ValueError` for 401 and a `RuntimeError` otherwise, and no variable is
      written. */
  lemma FailedFetchWritesNothing(env: map<string, string>, token: Option<string>, stdin: seq<string>,
                                 network: Request -> Reply)
    requires var r := SetupSpec(env, token, stdin, network);
      r.sent.Some? && FetchError(network(r.sent.value)).Some?
    ensures var r := SetupSpec(env, token, stdin, network);
      && r.env == env
      && r.outcome == Failed(FetchError(network(r.sent.value)).value)
      && var reply := network(r.sent.value);
         Kind(r.outcome.error) == (if reply.Answered? && reply.status == 401 then ValueError else RuntimeError)
  {
  }

  /** A successful fetch returns the parsed configuration unchanged and leaves each
      of the five variables holding the matching configuration string. */
  lemma {:induction false} FetchExportsFive(env: map<string, string>, token: Option<string>, stdin: seq<string>,
                                            network: Request -> Reply, i: nat)
    requires var r := SetupSpec(env, token, stdin, network);
      r.sent.Some? && r.outcome.Configured?
    requires i < |EXPORTS|
    ensures var r := SetupSpec(env, token, stdin, network);
      && network(r.sent.value).Answered?
      && IsSuccess(network(r.sent.value).status)
      && network(r.sent.value).body == Object(r.outcome.config)
      && EXPORTS[i].0 in r.env
      && EXPORTS[i].1 in r.outcome.config
      && r.outcome.config[EXPORTS[i].1] == Str(r.env[EXPORTS[i].0])
  {
    var r := SetupSpec(env, token, stdin, network);
    ExportNamesDistinct();
    ReceiveWrites(env, network(r.sent.value), EXPORTS, i);
  }

  /** Reading the variables back gives whatever configuration values were written
      into them. */
  lemma ExistingConfigReadsBack(env: map<string, string>, config: map<string, Value>)
    requires forall i :: 0 <= i < |EXPORTS| ==>
      EXPORTS[i].1 in config && EXPORTS[i].0 in env && config[EXPORTS[i].1] == Str(env[EXPORTS[i].0])
    ensures AllPgVarsSet(env)
    ensures forall k :: k in ExistingConfig(env) ==> k in config && ExistingConfig(env)[k] == config[k]
  {
    assert forall i :: 0 <= i < |PG_VARS| ==> PG_VARS[i] == EXPORTS[i].0;
    assert EXPORTS[0] == ("PGHOST", "pghost");
    assert EXPORTS[1] == ("PGPORT", "pgport");
    assert EXPORTS[2] == ("PGDATABASE", "pgdatabase");
    assert EXPORTS[3] == ("PGUSER", "pguser");
    assert EXPORTS[4] == ("PGPASSWORD", "pgpassword");
  }

  /** After a successful fetch the five variables are all set, and reading them
      back gives the configuration's five database values. */
  lemma SuccessRecordsCredentials(env: map<string, string>, token: Option<string>, stdin: seq<string>,
                                  network: Request -> Reply)
    requires var r := SetupSpec(env, token, stdin, network);
      r.sent.Some? && r.outcome.Configured?
    ensures var r := SetupSpec(env, token, stdin, network);
      && AllPgVarsSet(r.env)
      && forall k :: k in ExistingConfig(r.env) ==> k in r.outcome.config && ExistingConfig(r.env)[k] == r.outcome.config[k]
  {
    var r := SetupSpec(env, token, stdin, network);
    forall i | 0 <= i < |EXPORTS|
      ensures EXPORTS[i].1 in r.outcome.config && EXPORTS[i].0 in r.env
      ensures r.outcome.config[EXPORTS[i].1] == Str(r.env[EXPORTS[i].0])
    {
      FetchExportsFive(env, token, stdin, network, i);
    }
    ExistingConfigReadsBack(r.env, r.outcome.config);
  }

  /** Idempotence: after a successful fetch, a second call (whatever its token, input
      or network) sends nothing, changes nothing, and returns the five database
      values of the first call's configuration. */
  lemma SecondSetupShortCircuits(env: map<string, string>, token: Option<string>,
                                 stdin: seq<string>, network: Request -> Reply,
                                 token2: Option<string>, stdin2: seq<string>,
                                 network2: Request -> Reply)
    requires var r := SetupSpec(env, token, stdin, network);
      r.sent.Some? && r.outcome.Configured?
    ensures var r := SetupSpec(env, token, stdin, network);
      var again := SetupSpec(r.env, token2, stdin2, network2);
      && AllPgVarsSet(r.env)
      && again == Run(Configured(ExistingConfig(r.env)), r.env, None)
      && forall k :: k in again.outcome.config ==> k in r.outcome.config && again.outcome.config[k] == r.outcome.config[k]
  {
    SuccessRecordsCredentials(env, token, stdin, network);
    var r := SetupSpec(env, token, stdin, network);
    var again := SetupSpec(r.env, token2, stdin2, network2);
    assert again == Run(Configured(ExistingConfig(r.env)), r.env, None);
  }
}
