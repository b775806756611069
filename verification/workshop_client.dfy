/** What the two notebook-side clients (`workshop_setup.py` and
    `docs/workshop_setup.py`) have in common: the process environment they write,
    the single GET they issue, how its outcome becomes either the parsed
    configuration or one of two error kinds, the token resolution chain, and the
    sequential `os.environ[NAME] = config[key]` writes.

    The network and standard input are oracles: a reply is a function of the
    request, and `input()` reads the next of a given sequence of lines. */
module WorkshopClient {
  import opened PyBuiltins

  /** `os.environ`, the process-wide map the clients write. */
  class Environ {
    var vars: map<string, string>

    constructor (initial: map<string, string>)
      ensures vars == initial
    {
      vars := initial;
    }
  }

  /** The GET a client issues: URL, request headers and timeout in seconds. */
  datatype Request = Request(url: string, headers: map<string, string>, timeout: int)

  const TIMEOUT_SECONDS := 10

  /** A request carrying `Authorization: Bearer <token>`. */
  function BearerRequest(url: string, token: string): Request {
    Request(url, map["Authorization" := "Bearer " + token], TIMEOUT_SECONDS)
  }

  /** The body of a 2xx answer: a JSON object, or something that is not one (not
      JSON, not UTF-8, or JSON of another shape), with the text of the exception
      that reading it as a mapping raises. */
  datatype Body = Object(fields: map<string, Value>) | NotAnObject(detail: string)

  /** What the network does with a request: a final HTTP answer, a transport-level
      failure (DNS, connection, timeout: `URLError` / `httpx.RequestError`) with its
      reason, or any other exception with its text. */
  datatype Reply =
    | Answered(status: int, body: Body)
    | TransportFailed(reason: string)
    | OtherFailure(detail: string)

  /** The exceptions a setup call ends with. */
  datatype SetupError =
    | InvalidToken               // HTTP 401
    | HttpFailure(code: int)     // any other non-2xx status
    | ConnectFailure(reason: string)
    | Unexpected(detail: string)
    | InputClosed                // `input()` met end of file

  /** The Python exception class raised for each error. */
  datatype ErrorKind = ValueError | RuntimeError | EOFError

  function Kind(e: SetupError): ErrorKind {
    match e
    case InvalidToken => ValueError
    case InputClosed => EOFError
    case _ => RuntimeError
  }

  /** The exception message. Each one ends with what it reports: the status code,
      the transport's reason or the underlying exception's text. */
  function Message(e: SetupError): (r: string)
    ensures e.HttpFailure? ==>
      var code := IntToString(e.code);
      |code| < |r| && r[|r| - |code|..] == code
    ensures e.ConnectFailure? ==> |e.reason| < |r| && r[|r| - |e.reason|..] == e.reason
    ensures e.Unexpected? ==> |e.detail| < |r| && r[|r| - |e.detail|..] == e.detail
  {
    match e
    case InvalidToken => "Invalid workshop token. Please check with your instructor."
    case HttpFailure(code) => "Failed to fetch configuration: HTTP " + IntToString(code)
    case ConnectFailure(reason) => "Failed to connect to configuration endpoint: " + reason
    case Unexpected(detail) => "Unexpected error during configuration: " + detail
    case InputClosed => "EOF when reading a line"
  }

  /** A setup call returns the configuration mapping or raises. */
  datatype Outcome = Configured(config: map<string, Value>) | Failed(error: SetupError)

  /** One whole setup call: its outcome, the environment afterwards, and the request
      it sent, if any. */
  datatype Run = Run(outcome: Outcome, env: map<string, string>, sent: Option<Request>)

  // ---------------------------------------------------------------------------
  // Resolving an input: argument, then environment, then prompt

  /** A value obtained from the chain, with the input lines left unread; or end
      of input at the prompt. */
  datatype Resolved = Resolved(value: string, rest: seq<string>) | NoInput

  /** `token`, else `os.environ.get("WORKSHOP_TOKEN")`, else `input().strip()`. */
  function ResolveToken(arg: Option<string>, env: map<string, string>, stdin: seq<string>): (r: Resolved)
    ensures arg.Some? ==> r == Resolved(arg.value, stdin)
    ensures arg.None? && "WORKSHOP_TOKEN" in env ==> r == Resolved(env["WORKSHOP_TOKEN"], stdin)
    ensures arg.None? && "WORKSHOP_TOKEN" !in env ==>
      if stdin == [] then r.NoInput? else r == Resolved(Strip(stdin[0]), stdin[1..])
  {
    if arg.Some? then Resolved(arg.value, stdin)
    else if "WORKSHOP_TOKEN" in env then Resolved(env["WORKSHOP_TOKEN"], stdin)
    else if stdin == [] then NoInput
    else Resolved(Strip(stdin[0]), stdin[1..])
  }

  /** The fallback chain for `token`, reading `os.environ` and at most one input
      line. */
  method GetToken(os: Environ, token: Option<string>, stdin: seq<string>) returns (r: Resolved)
    ensures r == ResolveToken(token, os.vars, stdin)
  {
    var tok := token;
    if tok.None? {
      tok := if "WORKSHOP_TOKEN" in os.vars then Some(os.vars["WORKSHOP_TOKEN"]) else None;
    }
    if tok.None? {
      if stdin == [] {
        return NoInput;
      }
      return Resolved(Strip(stdin[0]), stdin[1..]);
    }
    r := Resolved(tok.value, stdin);
  }

  // ---------------------------------------------------------------------------
  // Writing the configuration into the environment

  /** What `os.environ[name] = config[key]` raises, if anything: `KeyError` for a
      missing key, `TypeError` for a value that is not a string, `ValueError` for a
      string holding a NUL character. */
  function WriteError(config: map<string, Value>, key: string): (err: Option<string>)
    ensures err.None? <==> key in config && config[key].Str? && '\0' !in config[key].s
  {
    if key !in config then Some("'" + key + "'")
    else match config[key]
      case Null => Some("str expected, not NoneType")
      case Bool(_) => Some("str expected, not bool")
      case Int(_) => Some("str expected, not int")
      case Str(s) => if '\0' in s then Some("embedded null byte") else None
  }

  /** The environment after a run of writes, and the first error raised, if any. */
  datatype Exported = Exported(env: map<string, string>, error: Option<string>)

  /** The environment variable names a list of writes targets. */
  function Names(exports: seq<(string, string)>): set<string> {
    set i | 0 <= i < |exports| :: exports[i].0
  }

  /** The writes `os.environ[name] = config[key]` for each pair in order; the first
      that raises stops the rest, and the writes before it stay. */
  function ExportAll(env: map<string, string>, config: map<string, Value>, exports: seq<(string, string)>): (r: Exported)
    ensures forall name :: name !in Names(exports) ==>
      (name in r.env <==> name in env) && (name in env ==> r.env[name] == env[name])
    ensures r.error.None? <==> forall i :: 0 <= i < |exports| ==> WriteError(config, exports[i].1).None?
    decreases |exports|
  {
    if exports == [] then Exported(env, None)
    else
      var (name, key) := exports[0];
      var err := WriteError(config, key);
      if err.Some? then Exported(env, err)
      else
        assert forall i :: 1 <= i < |exports| ==> exports[i] == exports[1..][i - 1];
        assert Names(exports) == {name} + Names(exports[1..]);
        ExportAll(env[name := config[key].s], config, exports[1..])
  }

  /** When every write succeeds and the names are distinct, each variable holds the
      string its key maps to. */
  lemma {:induction false} ExportAllWrites(env: map<string, string>, config: map<string, Value>,
                                          exports: seq<(string, string)>, i: nat)
    requires ExportAll(env, config, exports).error.None?
    requires forall a, b :: 0 <= a < b < |exports| ==> exports[a].0 != exports[b].0
    requires i < |exports|
    ensures var r := ExportAll(env, config, exports);
      exports[i].0 in r.env && config[exports[i].1] == Str(r.env[exports[i].0])
    decreases |exports|
  {
    var (name, key) := exports[0];
    assert WriteError(config, exports[0].1).None?;
    var next := env[name := config[key].s];
    var tail := exports[1..];
    if i == 0 {
      assert name !in Names(tail);
    } else {
      ExportAllWrites(next, config, tail, i - 1);
    }
  }

  /** When the first key is missing, the `KeyError` for it stops the writes before
      any variable changes. */
  lemma FirstKeyMissing(env: map<string, string>, config: map<string, Value>, exports: seq<(string, string)>)
    requires exports != [] && exports[0].1 !in config
    ensures ExportAll(env, config, exports) == Exported(env, Some("'" + exports[0].1 + "'"))
  {
  }

  /** One line `os.environ[name] = config[key]`. */
  method Export(os: Environ, name: string, config: map<string, Value>, key: string) returns (err: Option<string>)
    modifies os
    ensures err == WriteError(config, key)
    ensures os.vars == if err.None? then old(os.vars)[name := config[key].s] else old(os.vars)
  {
    err := WriteError(config, key);
    if err.None? {
      os.vars := os.vars[name := config[key].s];
    }
  }

  // ---------------------------------------------------------------------------
  // The try block: one reply, its classification, and the writes

  predicate IsSuccess(status: int) {
    200 <= status < 300
  }

  /** The `except` clauses for an answer or failure that never reached the writes:
      a non-2xx status (401 apart), a transport failure, or anything else. */
  function FetchError(reply: Reply): (e: Option<SetupError>)
    ensures e.None? <==> reply.Answered? && IsSuccess(reply.status) && reply.body.Object?
    ensures reply.Answered? && reply.status == 401 ==> e == Some(InvalidToken)
    ensures reply.Answered? && !IsSuccess(reply.status) && reply.status != 401 ==> e == Some(HttpFailure(reply.status))
    ensures reply.TransportFailed? ==> e == Some(ConnectFailure(reply.reason))
    ensures reply.OtherFailure? ==> e == Some(Unexpected(reply.detail))
    ensures reply.Answered? && IsSuccess(reply.status) && reply.body.NotAnObject? ==>
      e == Some(Unexpected(reply.body.detail))
    ensures e.Some? ==> Kind(e.value) == (if reply.Answered? && reply.status == 401 then ValueError else RuntimeError)
  {
    match reply
    case Answered(status, body) =>
      if !IsSuccess(status) then Some(if status == 401 then InvalidToken else HttpFailure(status))
      else if body.NotAnObject? then Some(Unexpected(body.detail))
      else None
    case TransportFailed(reason) => Some(ConnectFailure(reason))
    case OtherFailure(detail) => Some(Unexpected(detail))
  }

  /** The try block after the request: classify the reply; on a 2xx object, make the
      writes and return the parsed configuration unchanged. */
  function Receive(env: map<string, string>, reply: Reply, exports: seq<(string, string)>): (r: (Outcome, map<string, string>))
    ensures FetchError(reply).Some? ==> r == (Failed(FetchError(reply).value), env)
    ensures r.0.Configured? ==> reply.Answered? && reply.body.Object? && r.0.config == reply.body.fields
    ensures r.0.Configured? <==>
      FetchError(reply).None? && forall i :: 0 <= i < |exports| ==> WriteError(reply.body.fields, exports[i].1).None?
    ensures r.0.Failed? ==>
      Kind(r.0.error) == (if reply.Answered? && reply.status == 401 then ValueError else RuntimeError)
    ensures FetchError(reply).None? && ExportAll(env, reply.body.fields, exports).error.Some? ==>
      r.0 == Failed(Unexpected(ExportAll(env, reply.body.fields, exports).error.value))
    ensures forall name :: name !in Names(exports) ==>
      (name in r.1 <==> name in env) && (name in env ==> r.1[name] == env[name])
  {
    match FetchError(reply)
    case Some(e) => (Failed(e), env)
    case None =>
      var config := reply.body.fields;
      var ex := ExportAll(env, config, exports);
      if ex.error.Some? then (Failed(Unexpected(ex.error.value)), ex.env)
      else (Configured(config), ex.env)
  }

  /** A good fetch whose first key is missing fails with that key's `KeyError` text
      as an "Unexpected error", and the environment is left as it was. */
  lemma ReceiveFirstKeyMissing(env: map<string, string>, reply: Reply, exports: seq<(string, string)>)
    requires FetchError(reply).None?
    requires exports != [] && exports[0].1 !in reply.body.fields
    ensures Receive(env, reply, exports) == (Failed(Unexpected("'" + exports[0].1 + "'")), env)
  {
    FirstKeyMissing(env, reply.body.fields, exports);
  }

  /** On success every listed variable holds its configuration string. */
  lemma ReceiveWrites(env: map<string, string>, reply: Reply, exports: seq<(string, string)>, i: nat)
    requires forall a, b :: 0 <= a < b < |exports| ==> exports[a].0 != exports[b].0
    requires Receive(env, reply, exports).0.Configured? && i < |exports|
    ensures var (o, env') := Receive(env, reply, exports);
      exports[i].0 in env' && exports[i].1 in o.config && o.config[exports[i].1] == Str(env'[exports[i].0])
  {
    ExportAllWrites(env, reply.body.fields, exports, i);
  }
}
