/** The notebook client `workshop_setup.py`: resolve the project id and the token,
    GET `https://config.<project id>.eoapi.dev` with the bearer token, and on success
    export the eight configuration values as environment variables. On import in a
    notebook it runs itself when `PGHOST` is unset and `WORKSHOP_PROJECT_ID` is set. */
module WorkshopSetup {
  import opened PyBuiltins
  import opened WorkshopClient

  const DEFAULT_PROJECT_ID := "eoapiworkshop"
  const URL_PREFIX := "https://config."
  const URL_SUFFIX := ".eoapi.dev"

  /** The eight writes, in the order the source makes them: variable name, then the
      configuration key it is read from. */
  const EXPORTS: seq<(string, string)> := [
    ("PGHOST", "pghost"),
    ("PGPORT", "pgport"),
    ("PGDATABASE", "pgdatabase"),
    ("PGUSER", "pguser"),
    ("PGPASSWORD", "pgpassword"),
    ("STAC_API_ENDPOINT", "stac_api_endpoint"),
    ("TITILER_PGSTAC_API_ENDPOINT", "titiler_pgstac_api_endpoint"),
    ("TIPG_API_ENDPOINT", "tipg_api_endpoint")]

  /** `project_id`, else `os.environ.get("WORKSHOP_PROJECT_ID")` (even when empty),
      else the stripped prompt line, a blank line meaning `"eoapiworkshop"`. */
  function ResolveProjectId(arg: Option<string>, env: map<string, string>, stdin: seq<string>): (r: Resolved)
    ensures arg.Some? ==> r == Resolved(arg.value, stdin)
    ensures arg.None? && "WORKSHOP_PROJECT_ID" in env ==> r == Resolved(env["WORKSHOP_PROJECT_ID"], stdin)
    ensures arg.None? && "WORKSHOP_PROJECT_ID" !in env ==>
      (stdin == [] ==> r.NoInput?)
      && (stdin != [] ==> r.Resolved? && r.rest == stdin[1..]
                          && r.value == (if Strip(stdin[0]) == "" then DEFAULT_PROJECT_ID else Strip(stdin[0])))
  {
    if arg.Some? then Resolved(arg.value, stdin)
    else if "WORKSHOP_PROJECT_ID" in env then Resolved(env["WORKSHOP_PROJECT_ID"], stdin)
    else if stdin == [] then NoInput
    else
      var line := Strip(stdin[0]);
      Resolved(if line == "" then DEFAULT_PROJECT_ID else line, stdin[1..])
  }

  /** `f"https://config.{project_id}.eoapi.dev"`: the project id between the fixed
      prefix and suffix. */
  function ConfigUrl(projectId: string): (url: string)
    ensures |url| == |URL_PREFIX| + |projectId| + |URL_SUFFIX|
    ensures url[..|URL_PREFIX|] == URL_PREFIX
    ensures url[|url| - |URL_SUFFIX|..] == URL_SUFFIX
    ensures url[|URL_PREFIX|..|url| - |URL_SUFFIX|] == projectId
  {
    URL_PREFIX + projectId + URL_SUFFIX
  }

  /** The project id a configuration URL was built from. */
  function ProjectIdOf(url: string): string
    requires |url| >= |URL_PREFIX| + |URL_SUFFIX|
  {
    url[|URL_PREFIX|..|url| - |URL_SUFFIX|]
  }

  /** The URL names its project: the id can be read back from it, so distinct
      projects never share an endpoint. */
  lemma ConfigUrlRoundTrip(projectId: string)
    ensures |ConfigUrl(projectId)| >= |URL_PREFIX| + |URL_SUFFIX|
    ensures ProjectIdOf(ConfigUrl(projectId)) == projectId
  {
    var url := ConfigUrl(projectId);
    assert url[|URL_PREFIX|..|url| - |URL_SUFFIX|] == projectId;
  }

  /** `setup(project_id, token)` as a function of the environment, the input lines
      and the network. */
  function SetupSpec(env: map<string, string>, projectId: Option<string>, token: Option<string>,
                     stdin: seq<string>, network: Request -> Reply): (r: Run)
    ensures r.sent.None? <==> r.outcome == Failed(InputClosed)
    ensures r.sent.None? ==> r.env == env
    ensures forall name :: name !in Names(EXPORTS) ==>
      (name in r.env <==> name in env) && (name in env ==> r.env[name] == env[name])
  {
    match ResolveProjectId(projectId, env, stdin)
    case NoInput => Run(Failed(InputClosed), env, None)
    case Resolved(pid, stdin') =>
      match ResolveToken(token, env, stdin')
      case NoInput => Run(Failed(InputClosed), env, None)
      case Resolved(tok, _) =>
        var request := BearerRequest(ConfigUrl(pid), tok);
        var (outcome, env') := Receive(env, network(request), EXPORTS);
        Run(outcome, env', Some(request))
  }

  /** The eight lines `os.environ[NAME] = config[key]`, in order. */
  method ExportConfig(os: Environ, config: map<string, Value>) returns (err: Option<string>)
    modifies os
    ensures Exported(os.vars, err) == ExportAll(old(os.vars), config, EXPORTS)
  {
    ghost var env0 := os.vars;

    err := Export(os, "PGHOST", config, "pghost");
    if err.Some? { return; }
    assert ExportAll(env0, config, EXPORTS) == ExportAll(os.vars, config, EXPORTS[1..]);
    err := Export(os, "PGPORT", config, "pgport");
    if err.Some? { return; }
    assert ExportAll(env0, config, EXPORTS) == ExportAll(os.vars, config, EXPORTS[2..]);
    err := Export(os, "PGDATABASE", config, "pgdatabase");
    if err.Some? { return; }
    assert ExportAll(env0, config, EXPORTS) == ExportAll(os.vars, config, EXPORTS[3..]);
    err := Export(os, "PGUSER", config, "pguser");
    if err.Some? { return; }
    assert ExportAll(env0, config, EXPORTS) == ExportAll(os.vars, config, EXPORTS[4..]);
    err := Export(os, "PGPASSWORD", config, "pgpassword");
    if err.Some? { return; }
    assert ExportAll(env0, config, EXPORTS) == ExportAll(os.vars, config, EXPORTS[5..]);
    err := Export(os, "STAC_API_ENDPOINT", config, "stac_api_endpoint");
    if err.Some? { return; }
    assert ExportAll(env0, config, EXPORTS) == ExportAll(os.vars, config, EXPORTS[6..]);
    err := Export(os, "TITILER_PGSTAC_API_ENDPOINT", config, "titiler_pgstac_api_endpoint");
    if err.Some? { return; }
    assert ExportAll(env0, config, EXPORTS) == ExportAll(os.vars, config, EXPORTS[7..]);
    err := Export(os, "TIPG_API_ENDPOINT", config, "tipg_api_endpoint");
    if err.Some? { return; }
    assert ExportAll(env0, config, EXPORTS) == ExportAll(os.vars, config, EXPORTS[8..]);
  }

  /** The fallback chain for `project_id` at the start of `setup`, reading
      `os.environ` and at most one input line. */
  method GetProjectId(os: Environ, projectId: Option<string>, stdin: seq<string>) returns (r: Resolved)
    ensures r == ResolveProjectId(projectId, os.vars, stdin)
  {
    var pid := projectId;
    if pid.None? {
      pid := if "WORKSHOP_PROJECT_ID" in os.vars then Some(os.vars["WORKSHOP_PROJECT_ID"]) else None;
    }
    if pid.None? {
      if stdin == [] {
        return NoInput;
      }
      var line := Strip(stdin[0]);
      return Resolved(if line == "" then DEFAULT_PROJECT_ID else line, stdin[1..]);
    }
    r := Resolved(pid.value, stdin);
  }

  /** `setup(project_id, token)`. */
  method Setup(os: Environ, projectId: Option<string>, token: Option<string>,
               stdin: seq<string>, network: Request -> Reply) returns (outcome: Outcome, sent: Option<Request>)
    modifies os
    ensures Run(outcome, os.vars, sent) == SetupSpec(old(os.vars), projectId, token, stdin, network)
  {
    var pid := GetProjectId(os, projectId, stdin);
    if pid.NoInput? {
      return Failed(InputClosed), None;
    }
    var url := ConfigUrl(pid.value);
    var tok := GetToken(os, token, pid.rest);
    if tok.NoInput? {
      return Failed(InputClosed), None;
    }

    var request := BearerRequest(url, tok.value);
    sent := Some(request);
    var reply := network(request);
    var error := FetchError(reply);
    if error.Some? {
      return Failed(error.value), sent;
    }
    var config := reply.body.fields;
    var err := ExportConfig(os, config);
    if err.Some? {
      return Failed(Unexpected(err.value)), sent;
    }
    outcome := Configured(config);
  }

  // ---------------------------------------------------------------------------
  // Import-time auto-setup

  /** The guard of the import-time call (the notebook probe apart). */
  predicate AutoSetupWanted(env: map<string, string>) {
    "PGHOST" !in env && "WORKSHOP_PROJECT_ID" in env
  }

  /** Importing the module: in a notebook, and only when the guard holds, `setup()`
      runs with no arguments; its exceptions propagate out of the import. */
  method Import(os: Environ, inNotebook: bool, stdin: seq<string>, network: Request -> Reply)
    returns (ran: Option<(Outcome, Option<Request>)>)
    modifies os
    ensures ran.Some? <==> inNotebook && AutoSetupWanted(old(os.vars))
    ensures ran.None? ==> os.vars == old(os.vars)
    ensures ran.Some? ==> Run(ran.value.0, os.vars, ran.value.1) == SetupSpec(old(os.vars), None, None, stdin, network)
  {
    ran := None;
    if inNotebook && "PGHOST" !in os.vars && "WORKSHOP_PROJECT_ID" in os.vars {
      var outcome, sent := Setup(os, None, None, stdin, network);
      ran := Some((outcome, sent));
    }
  }

  // ---------------------------------------------------------------------------
  // Properties

  /** The request goes to the project's configuration URL with the resolved token. */
  lemma RequestCarriesToken(env: map<string, string>, projectId: Option<string>, token: Option<string>,
                            stdin: seq<string>, network: Request -> Reply)
    requires SetupSpec(env, projectId, token, stdin, network).sent.Some?
    ensures var pid := ResolveProjectId(projectId, env, stdin);
      && pid.Resolved?
      && var tok := ResolveToken(token, env, pid.rest);
      && tok.Resolved?
      && SetupSpec(env, projectId, token, stdin, network).sent
         == Some(Request(ConfigUrl(pid.value), map["Authorization" := "Bearer " + tok.value], 10))
  {
  }

  /** Once the request is sent, the outcome and the environment are what `Receive`
      makes of the reply. */
  lemma SentIsReceived(env: map<string, string>, projectId: Option<string>, token: Option<string>,
                       stdin: seq<string>, network: Request -> Reply)
    requires SetupSpec(env, projectId, token, stdin, network).sent.Some?
    ensures var r := SetupSpec(env, projectId, token, stdin, network);
      (r.outcome, r.env) == Receive(env, network(r.sent.value), EXPORTS)
  {
  }

  /** No variable is written twice. */
  lemma ExportNamesDistinct()
    ensures forall a, b :: 0 <= a < b < |EXPORTS| ==> EXPORTS[a].0 != EXPORTS[b].0
  {
  }

  /** A successful setup returns the parsed configuration unchanged and leaves each
      of the eight variables holding the matching configuration string. */
  lemma {:induction false} SuccessExportsEight(env: map<string, string>, projectId: Option<string>,
                                               token: Option<string>, stdin: seq<string>,
                                               network: Request -> Reply, i: nat)
    requires SetupSpec(env, projectId, token, stdin, network).outcome.Configured?
    requires i < |EXPORTS|
    ensures var r := SetupSpec(env, projectId, token, stdin, network);
      && r.sent.Some?
      && network(r.sent.value).Answered?
      && network(r.sent.value).body == Object(r.outcome.config)
      && EXPORTS[i].0 in r.env
      && EXPORTS[i].1 in r.outcome.config
      && r.outcome.config[EXPORTS[i].1] == Str(r.env[EXPORTS[i].0])
  {
    var r := SetupSpec(env, projectId, token, stdin, network);
    var reply := network(r.sent.value);
    ExportNamesDistinct();
    ReceiveWrites(env, reply, EXPORTS, i);
  }

  /** When the request itself fails (an error status, a transport failure, any
      other exception, or a body that is not an object), no variable is written. */
  lemma FailedFetchWritesNothing(env: map<string, string>, projectId: Option<string>, token: Option<string>,
                                 stdin: seq<string>, network: Request -> Reply)
    requires var r := SetupSpec(env, projectId, token, stdin, network);
      r.sent.Some? && FetchError(network(r.sent.value)).Some?
    ensures var r := SetupSpec(env, projectId, token, stdin, network);
      && r.env == env
      && r.outcome == Failed(FetchError(network(r.sent.value)).value)
  {
  }

  /** The first write is `PGHOST` from `pghost`, quoted as `'pghost'` in its
      `KeyError`. */
  lemma FirstKeyIsPghost()
    ensures EXPORTS[0].1 == "pghost" && "'" + EXPORTS[0].1 + "'" == "'pghost'"
  {
  }

  /** A good fetch whose object lacks the first key to export stops at the first
      write, with that key's `KeyError` text and no variable written. */
  lemma FirstWriteMissing(env: map<string, string>, projectId: Option<string>, token: Option<string>,
                          stdin: seq<string>, network: Request -> Reply)
    requires var r := SetupSpec(env, projectId, token, stdin, network);
      && r.sent.Some?
      && FetchError(network(r.sent.value)).None?
      && EXPORTS[0].1 !in network(r.sent.value).body.fields
    ensures var r := SetupSpec(env, projectId, token, stdin, network);
      r.outcome == Failed(Unexpected("'" + EXPORTS[0].1 + "'")) && r.env == env
  {
    var r := SetupSpec(env, projectId, token, stdin, network);
    SentIsReceived(env, projectId, token, stdin, network);
    ReceiveFirstKeyMissing(env, network(r.sent.value), EXPORTS);
  }

  /** A 2xx object without `pghost` stops at the first write: the `KeyError` surfaces
      as the "Unexpected error" `RuntimeError` and no variable is written. */
  lemma MissingKeyIsUnexpected(env: map<string, string>, projectId: Option<string>, token: Option<string>,
                               stdin: seq<string>, network: Request -> Reply)
    requires var r := SetupSpec(env, projectId, token, stdin, network);
      && r.sent.Some?
      && var reply := network(r.sent.value);
      && reply.Answered? && IsSuccess(reply.status) && reply.body.Object?
      && "pghost" !in reply.body.fields
    ensures var r := SetupSpec(env, projectId, token, stdin, network);
      && r.outcome == Failed(Unexpected("'pghost'"))
      && Kind(r.outcome.error) == RuntimeError
      && r.env == env
  {
    FirstKeyIsPghost();
    FirstWriteMissing(env, projectId, token, stdin, network);
  }

  /** After a successful setup the guard no longer holds, so importing the module
      again does not repeat the request. */
  lemma SuccessDisablesAutoSetup(env: map<string, string>, projectId: Option<string>, token: Option<string>,
                                 stdin: seq<string>, network: Request -> Reply)
    requires SetupSpec(env, projectId, token, stdin, network).outcome.Configured?
    ensures !AutoSetupWanted(SetupSpec(env, projectId, token, stdin, network).env)
  {
    SuccessExportsEight(env, projectId, token, stdin, network, 0);
  }
}
