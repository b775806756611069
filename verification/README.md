# eoAPI workshop configuration: a Dafny model

The eoAPI workshop hands database credentials and API endpoints to notebook users.
This project models the parts of the workshop repository that move those credentials:

- **The configuration broker**, an AWS Lambda `handler`
  (`infrastructure/lambda/workshop_config.py`). At import it reads its settings from the
  environment. Per request it:
  - finds the `Authorization` header, matching the name case-insensitively;
  - checks the `Bearer` token against the configured `WORKSHOP_TOKEN`;
  - reads the database secret from the secret store;
  - answers 401, 500 or 200. A 200 carries an eight-key JSON body with CORS headers.
- **The notebook client** `setup` (`workshop_setup.py`). It:
  - resolves a project id (argument, then `WORKSHOP_PROJECT_ID`, then a prompt);
  - resolves a token (argument, then `WORKSHOP_TOKEN`, then a prompt);
  - sends one GET to `https://config.<project>.eoapi.dev` with `Authorization: Bearer <token>`;
  - writes eight environment variables from the answer;
  - turns failures into `ValueError` (HTTP 401), `EOFError` (end of input at a prompt) or
    `RuntimeError` (everything else).

  At import inside a notebook it runs `setup()` when `PGHOST` is unset and
  `WORKSHOP_PROJECT_ID` is set.
- **The documentation client** `setup` (`docs/workshop_setup.py`). It returns the five
  `PG*` variables straight away when all of them are already set. Otherwise it fetches
  from `CONFIG_API_ENDPOINT` (default `https://workshop-config.eoapi.dev`) and writes the
  five variables.
- **The deployment settings** `AppConfig` (`infrastructure/config.py`). This covers:
  - the field defaults;
  - the `tags` validator (`default_tags`);
  - the private-subnet/NAT check (`validate_model`);
  - `build_service_name`.

Modules:

| module | file | contents |
|---|---|---|
| `PyBuiltins` | `py_builtins.dfy` | The Python built-ins the core relies on: `dict.get`, `str.lower` (ASCII), `startswith`, `replace(pat, "")`, `strip()` over Python's whitespace set, and `str()` of JSON scalars. |
| `WorkshopConfig` | `workshop_config.dfy` | The broker: import-time settings, the header scan (a loop proved against a recursive lookup), the response decision and the handler. |
| `WorkshopClient` | `workshop_client.dfy` | What both clients share: `os.environ` as a class, the request, the network's reply, the exception mapping, the token chain and the ordered environment writes. |
| `WorkshopSetup` | `workshop_setup.dfy` | The root client `setup` and its import-time guard. |
| `DocsWorkshopSetup` | `docs_workshop_setup.dfy` | The documentation client `setup`, with its short-circuit. |
| `DeployConfig` | `deploy_config.dfy` | The deployment settings. |
| `EndToEnd` | `end_to_end.dfy` | The root client talking to the broker: the round trip of a secret. |

The outside world comes in as parameters:

| outside input | modelled as |
|---|---|
| the network | a function from the request sent to the reply received |
| standard input | a sequence of lines, where end of input makes `input()` raise `EOFError` |
| the secret store | its answer, given as a parameter |
| the IPython probe | a boolean |

The two `setup` functions and the import guard are module-level methods that take the
`Environ` (`os.environ`) as a parameter and update it. Each is proved equal to a specification function (`SetupSpec`) of the starting environment,
the input lines and the network. The properties are proved about those functions.

## Model

| member | source | states |
|---|---|---|
| `PyBuiltins.Lower` | infrastructure/lambda/workshop_config.py:40 | `key.lower()` keeps the length, maps each upper-case ASCII letter to its lower-case form, keeps every other character, and leaves no upper-case letter. |
| `PyBuiltins.RemoveAll` | infrastructure/lambda/workshop_config.py:55 | `replace("Bearer ", "")` never lengthens the header, and removes at least the scheme's length when the header starts with it. |
| `PyBuiltins.RemoveAllAbsent` | infrastructure/lambda/workshop_config.py:55 | A string that does not contain the pattern comes back unchanged. |
| `PyBuiltins.RemoveAllPresent` | infrastructure/lambda/workshop_config.py:55 | Removing a pattern that occurs shortens the string by at least the pattern's length. |
| `PyBuiltins.RemoveAllLeading` | infrastructure/lambda/workshop_config.py:55 | A leading occurrence of the pattern is removed and the rest is scanned on its own. |
| `PyBuiltins.TrimStart` | workshop_setup.py:50 | The result is a suffix of the line, every character removed is whitespace, and the result does not start with whitespace. |
| `PyBuiltins.TrimEnd` | workshop_setup.py:50 | The result is a prefix of the line, every character removed is whitespace, and the result does not end with whitespace. |
| `PyBuiltins.Strip` | workshop_setup.py:50 | `strip()` returns a contiguous piece of the line with only whitespace before and after it, and the piece neither starts nor ends with whitespace. |
| `PyBuiltins.StripIdempotent` | workshop_setup.py:38 | Stripping an already stripped line changes nothing. |
| `PyBuiltins.NatToString` | infrastructure/lambda/workshop_config.py:74 | `str()` of a non-negative integer is a non-empty string of decimal digits with no leading zero. |
| `PyBuiltins.ParseNatToString` | infrastructure/lambda/workshop_config.py:74 | The decimal text of a port reads back as the same number. |
| `PyBuiltins.IntToString` | workshop_setup.py:85 | The text of a status code starts with `-` exactly when the code is negative, and is the decimal text of a non-negative code. |
| `PyBuiltins.PyStr` | infrastructure/lambda/workshop_config.py:74 | `str()` of a string is the string itself. Of `None`, a boolean or an integer it is non-empty text without NUL. |
| `WorkshopConfig.LoadSettings` | infrastructure/lambda/workshop_config.py:20-24 | The broker starts exactly when both `PGSTAC_SECRET_ARN` and `WORKSHOP_TOKEN` are set, and then takes its secret id and token from them. |
| `WorkshopConfig.FirstAuthorization` | infrastructure/lambda/workshop_config.py:38-42 | No value exactly when no header name lower-cases to `authorization`. Otherwise the value is that of the first such header. |
| `WorkshopConfig.FindAuthorization` | infrastructure/lambda/workshop_config.py:38-42 | The scan with `break` returns the value of the first matching header (the loop invariant ties it to `FirstAuthorization`). |
| `WorkshopConfig.LookupIgnoresCase` | infrastructure/lambda/workshop_config.py:39-40 | Respelling a header name in another case does not change what the lookup finds. |
| `WorkshopConfig.Respond` | infrastructure/lambda/workshop_config.py:44-101 | See the bullets after this table. |
| `WorkshopConfig.Handle` | infrastructure/lambda/workshop_config.py:36-39 | The handler raises exactly when the event's `headers` is `null`. |
| `WorkshopConfig.AbsentHeadersAsEmpty` | infrastructure/lambda/workshop_config.py:36-45 | An event without `headers` is answered exactly as one with empty headers, with a 401. |
| `WorkshopConfig.Handler` | infrastructure/lambda/workshop_config.py:27-101 | The handler method answers as `Handle` does. |
| `WorkshopConfig.MalformedHeaderRejected` | infrastructure/lambda/workshop_config.py:45-53 | The "Missing or invalid Authorization header" 401 is given exactly when the header is missing, empty or lacks the `Bearer ` prefix. |
| `WorkshopConfig.WrongTokenRejected` | infrastructure/lambda/workshop_config.py:55-64 | The "Invalid token" 401 is given exactly when the header is well formed and the stripped token differs from the configured one. |
| `WorkshopConfig.RejectionIgnoresSecrets` | infrastructure/lambda/workshop_config.py:44-64 | A rejected request gets the same 401 whatever the secret store holds, and its body holds only an error message. |
| `WorkshopConfig.RetrievalFailureIsGeneric` | infrastructure/lambda/workshop_config.py:92-101 | A failing store gives the fixed 500 "Failed to retrieve configuration" with CORS headers. |
| `WorkshopConfig.ConfigBody` | infrastructure/lambda/workshop_config.py:72-81 | The configuration has exactly the eight keys, and its port and three endpoints are strings. |
| `WorkshopConfig.SuccessBodyRenames` | infrastructure/lambda/workshop_config.py:72-90 | A 200 body has eight entries: `host`, `dbname`, `username` and `password` renamed, `port` as its `str()` text, and the three endpoints. |
| `WorkshopConfig.PortAsDecimalText` | infrastructure/lambda/workshop_config.py:74 | A numeric port is sent as decimal digits that read back as the port. |
| `WorkshopConfig.EndpointsFromEnvironment` | infrastructure/lambda/workshop_config.py:22-24 | The endpoints in a 200 body are the broker's environment values, or `""` when unset. |
| `WorkshopConfig.BearerTokenAccepted` | infrastructure/lambda/workshop_config.py:55-56 | `Bearer <token>` is accepted when the configured token does not itself contain `Bearer `. |
| `WorkshopConfig.RepeatedSchemeAccepted` | infrastructure/lambda/workshop_config.py:55 | Every `Bearer ` is removed, so `Bearer Bearer <token>` is accepted too. |
| `WorkshopConfig.TokenWithSchemeRefused` | infrastructure/lambda/workshop_config.py:55-56 | Every configured token that contains `Bearer ` is refused with a 401, even when sent exactly as `Bearer <token>`, whatever the secret store holds. |
| `WorkshopClient.Environ.constructor` | workshop_setup.py:61-70 | The environment object starts with the given variables. |
| `WorkshopClient.ResolveToken` | workshop_setup.py:44-50 | The token comes from the argument, else `WORKSHOP_TOKEN`, else the stripped next input line. End of input gives no token. |
| `WorkshopClient.GetToken` | workshop_setup.py:44-50 | The step-by-step resolution returns what `ResolveToken` specifies. |
| `WorkshopClient.WriteError` | workshop_setup.py:61-70 | `os.environ[name] = config[key]` succeeds exactly when the key is present and holds a string without NUL. Otherwise `KeyError`/`TypeError`/`ValueError` text is given. |
| `WorkshopClient.FirstKeyMissing` | workshop_setup.py:61 | When the first key to export is missing, the writes stop with `KeyError` text naming that key and the environment unchanged. |
| `WorkshopClient.ReceiveFirstKeyMissing` | workshop_setup.py:61-89 | A good fetch whose first key is missing fails as an "Unexpected error" with that key's `KeyError` text, and the environment is unchanged. |
| `WorkshopClient.ExportAll` | workshop_setup.py:61-70 | The ordered writes touch only the listed variables, and report no error exactly when every write is allowed. |
| `WorkshopClient.ExportAllWrites` | workshop_setup.py:61-70 | After error-free writes to distinct names, each variable holds its key's string. |
| `WorkshopClient.Export` | workshop_setup.py:61 | One write updates that variable or, on error, leaves the environment unchanged. |
| `WorkshopClient.Message` | workshop_setup.py:79-89 | The message of an HTTP failure ends with the status text; those of connection and unexpected failures end with the reason or the exception text. |
| `WorkshopClient.FetchError` | workshop_setup.py:79-89 | See the bullets after this table. |
| `WorkshopClient.Receive` | workshop_setup.py:53-89 | See the bullets after this table. |
| `WorkshopClient.ReceiveWrites` | workshop_setup.py:57-77 | On success each listed variable holds the configuration's string for its key. |
| `WorkshopSetup.ResolveProjectId` | workshop_setup.py:32-38 | The project id comes from the argument, else `WORKSHOP_PROJECT_ID` (even if empty), else the stripped next line, with a blank line giving `eoapiworkshop`. End of input gives no id. |
| `WorkshopSetup.ConfigUrl` | workshop_setup.py:41 | The URL is `https://config.` followed by the project id and then `.eoapi.dev`. |
| `WorkshopSetup.ConfigUrlRoundTrip` | workshop_setup.py:41 | The project id can be read back out of the configuration URL. |
| `WorkshopSetup.SetupSpec` | workshop_setup.py:20-89 | A request is sent unless input ends at a prompt, in which case nothing changes. Only the eight configuration variables can change. |
| `WorkshopSetup.ExportConfig` | workshop_setup.py:61-70 | The eight writes in order give the environment and first error that `ExportAll` specifies. |
| `WorkshopSetup.GetProjectId` | workshop_setup.py:32-38 | The step-by-step resolution returns what `ResolveProjectId` specifies. |
| `WorkshopSetup.Setup` | workshop_setup.py:20-89 | The `setup` method's outcome, final environment and request equal `SetupSpec` of the starting state. |
| `WorkshopSetup.Import` | workshop_setup.py:93-102 | Setup runs exactly in a notebook with `PGHOST` unset and `WORKSHOP_PROJECT_ID` set, and then behaves as `setup()`. Otherwise the environment is unchanged. |
| `WorkshopSetup.RequestCarriesToken` | workshop_setup.py:54-57 | The request goes to the resolved project's URL with `Authorization: Bearer <resolved token>` and a 10-second timeout. |
| `WorkshopSetup.ExportNamesDistinct` | workshop_setup.py:61-70 | The eight variable names are distinct. |
| `WorkshopSetup.SuccessExportsEight` | workshop_setup.py:57-77 | A successful setup returns the 2xx reply's object unchanged, and each of the eight variables holds its configuration string. |
| `WorkshopSetup.FailedFetchWritesNothing` | workshop_setup.py:79-89 | A failed fetch raises the mapped error and writes no variable. |
| `WorkshopSetup.SentIsReceived` | workshop_setup.py:53-89 | Once the request is sent, the outcome and the environment are what `Receive` makes of the reply. |
| `WorkshopSetup.FirstWriteMissing` | workshop_setup.py:61-89 | A good fetch whose object lacks the first key stops at the first write, with its `KeyError` text and no variable written. |
| `WorkshopSetup.MissingKeyIsUnexpected` | workshop_setup.py:61-89 | A 2xx object without `pghost` raises `RuntimeError` with the `KeyError` text `'pghost'`, and writes no variable. |
| `WorkshopSetup.SuccessDisablesAutoSetup` | workshop_setup.py:98 | After a successful setup the import guard no longer holds. |
| `DocsWorkshopSetup.ConfigEndpoint` | docs/workshop_setup.py:54-56 | The endpoint is `CONFIG_API_ENDPOINT` when set, else `https://workshop-config.eoapi.dev`. |
| `DocsWorkshopSetup.SetupSpec` | docs/workshop_setup.py:22-102 | See the bullets after this table. |
| `DocsWorkshopSetup.ExistingConfig` | docs/workshop_setup.py:45-51 | The returned mapping holds, for each of the five keys, the string of its `PG*` variable. |
| `DocsWorkshopSetup.RequestCarriesToken` | docs/workshop_setup.py:58-73 | A request, when sent, goes to the configured endpoint with `Authorization: Bearer <resolved token>` and a 10-second timeout. |
| `DocsWorkshopSetup.FailedFetchWritesNothing` | docs/workshop_setup.py:90-102 | A failed fetch raises the mapped error (`ValueError` for 401, otherwise `RuntimeError`) and writes no variable. |
| `DocsWorkshopSetup.ExportCredentials` | docs/workshop_setup.py:78-82 | The five writes in order give the environment and first error that `ExportAll` specifies. |
| `DocsWorkshopSetup.Setup` | docs/workshop_setup.py:22-102 | The `setup` method's outcome, final environment and request equal `SetupSpec` of the starting state. |
| `DocsWorkshopSetup.MissingVariableForcesRequest` | docs/workshop_setup.py:39-41 | With any one `PG*` variable missing, a request is sent unless input ends at the token prompt. |
| `DocsWorkshopSetup.ExportNamesDistinct` | docs/workshop_setup.py:78-82 | The five variable names are distinct. |
| `DocsWorkshopSetup.FetchExportsFive` | docs/workshop_setup.py:68-88 | A successful fetch returns the 2xx reply's object unchanged, and each of the five variables holds its configuration string. |
| `DocsWorkshopSetup.ExistingConfigReadsBack` | docs/workshop_setup.py:45-51 | Variables written from a configuration read back as that configuration's five database values. |
| `DocsWorkshopSetup.SuccessRecordsCredentials` | docs/workshop_setup.py:78-82 | After a successful fetch all five `PG*` variables are set and read back as the fetched values. |
| `DocsWorkshopSetup.SecondSetupShortCircuits` | docs/workshop_setup.py:39-51 | After a successful fetch, a second `setup` (any token, input or network) sends nothing, changes nothing and returns the first call's five database values. |
| `DeployConfig.Load` | infrastructure/config.py:14-58 | Loading fails exactly for a private database subnet with a NAT count of 0 or less. Otherwise every field takes its supplied value or its default, and the tags are `DefaultTags` of the supplied tags and the loaded project id and stage, so never empty. |
| `DeployConfig.DefaultTags` | infrastructure/config.py:42-44 | No tags or empty tags give exactly `{project_id, stage}` with the configured values. Non-empty tags are kept. The result is never empty. |
| `DeployConfig.ValidateModel` | infrastructure/config.py:46-58 | Validation fails exactly for a private database subnet with a NAT count of 0 or less, and otherwise returns the settings unchanged. |
| `DeployConfig.DefaultsAreValid` | infrastructure/config.py:14-36 | With nothing supplied the settings are `eoapi-template-demo`/`test`/`t3.small`/5/public/0 NAT, with the two default tags, and they validate. |
| `DeployConfig.LoadedTagsNonEmpty` | infrastructure/config.py:42-44 | Loaded settings always carry tags. |
| `DeployConfig.PublicSubnetAlwaysValid` | infrastructure/config.py:46-58 | A public database subnet validates whatever the NAT count. |
| `DeployConfig.PrivateSubnetNeedsNat` | infrastructure/config.py:46-58 | A private database subnet validates exactly when a positive NAT count is supplied. |
| `DeployConfig.BuildServiceName` | infrastructure/config.py:60-61 | The name starts with the project id and `-`, ends with the service id, and is two characters longer than its three parts. |
| `DeployConfig.ServiceNameParts` | infrastructure/config.py:60-61 | A service name is `<project>-<stage>-` followed by the service id. |
| `DeployConfig.ServiceNamesDistinct` | infrastructure/config.py:60-61 | Distinct service ids give distinct names within one deployment. |
| `EndToEnd.BrokerAnswersBearer` | workshop_setup.py:54-57 | The broker answers the client's `Bearer` request with 200 and the configuration body. |
| `EndToEnd.ConfigBodyWritable` | infrastructure/lambda/workshop_config.py:72-81 | A secret with NUL-free string credentials and a port whose `str()` is NUL-free yields a body that all eight client writes accept. |
| `EndToEnd.AnswerAccepted` | workshop_setup.py:57-77 | A 200 object whose eight writes are all allowed is returned as the configuration. |
| `EndToEnd.SetupReceives` | workshop_setup.py:53-77 | Such an answer ends `setup` with one request sent and the body as its result. |
| `EndToEnd.SetupWritesField` | workshop_setup.py:61-70 | Each of the eight variables then holds the body's string for its key. |
| `EndToEnd.ConfigBodyFields` | infrastructure/lambda/workshop_config.py:72-77 | The body carries the secret's host and password as stored, and the `str()` of its port. |
| `EndToEnd.CredentialsExported` | workshop_setup.py:61-65 | `PGHOST`, `PGPORT` and `PGPASSWORD` then hold the body's strings. |
| `EndToEnd.ClientReceivesSecret` | workshop_setup.py:53-77 | See the bullets after this table. |
| `EndToEnd.ClientExportsCredentials` | workshop_setup.py:61-65 | After the round trip, `PGHOST`/`PGPASSWORD` hold the secret's values and `PGPORT` holds the `str()` of its port. |
| `EndToEnd.ClientExportsDecimalPort` | infrastructure/lambda/workshop_config.py:74 | An integer port arrives in `PGPORT` as its decimal text, which reads back as the port. |
| `EndToEnd.WrongTokenRaisesValueError` | workshop_setup.py:79-83 | A token the broker refuses makes the client raise `ValueError` and leaves the environment unchanged. |

The longer contracts in the table:

- `WorkshopConfig.Respond`:
  - every answer has the JSON and CORS headers and a status of 200, 401 or 500;
  - the status is 200 exactly when the token is accepted and the store answers;
  - the status is 401 exactly when the token is not accepted;
  - an error body holds only `error`;
  - a 200 body holds exactly the eight configuration keys.
- `WorkshopClient.FetchError`:
  - there is no error exactly for a 2xx answer whose body is a JSON object;
  - 401 gives `InvalidToken`, of kind `ValueError`;
  - any other non-2xx status gives `HttpFailure(status)`;
  - a transport failure gives `ConnectFailure(reason)`;
  - any other failure, and a 2xx body that is not a JSON object, give `Unexpected` with
    the exception text;
  - every error except 401 is a `RuntimeError`.
- `WorkshopClient.Receive`:
  - the result is the configuration exactly when the fetch succeeds and every listed
    write is allowed;
  - a failure is a `ValueError` for a 401 answer and a `RuntimeError` otherwise;
  - a failed fetch returns its error with the environment untouched;
  - a failed write after a good fetch gives `Unexpected` with the write's error text;
  - success returns the parsed body unchanged;
  - variables outside the list are never touched.
- `DocsWorkshopSetup.SetupSpec`:
  - when all five `PG*` variables are set, it returns them with no request and no change;
  - it takes that path exactly when no request is sent and input did not end;
  - a request, when sent, goes to the configured endpoint;
  - only the five variables can change.
- `EndToEnd.ClientReceivesSecret` (the round trip): with the broker's token, the client
  sends one request to the project URL and ends with the broker's configuration body as
  its result.

## Left out

- Calls into services and libraries:
  - The secret store call (`boto3` `get_secret_value`) and the parsing of the
    `SecretString` JSON are a parameter: either the parsed mapping or a failure. Any
    exception in that block, including JSON parse errors, is that failure.
  - The HTTP transport (`urllib.request.urlopen`, `httpx.get`) is a function from request
    to reply. Redirect handling is folded into the reply. The 10-second timeout is
    recorded in the request only; its effect is a reply the network chooses. A timeout
    while connecting is a transport failure (`URLError`, "Failed to connect"). In
    `workshop_setup.py` a timeout while awaiting or reading the response raises
    `TimeoutError`, which is an `OtherFailure` reply and so an "Unexpected error". In
    `docs/workshop_setup.py` every `httpx` timeout is a `RequestError`, so a transport
    failure.
  - JSON decoding on the client side is folded into the reply's body. The body is
    either an object of scalars or "not an object" with the exception text.
- JSON values:
  - Values are JSON scalars only (null, booleans, integers, strings). Floats, arrays and
    nested objects inside a configuration or secret are not modelled.
  - `str()` of a float port is therefore not modelled either.
  - Response bodies are mappings, so the key order of `json.dumps` is not modelled.
- Output and notebook detection:
  - `print` output (prompts, progress and success messages, the broker's error log) is
    left out.
  - The IPython probe (`get_ipython()` raising `NameError`) is a boolean parameter.
  - The `__name__ != "__main__"` test is assumed true (the module is imported).
- `PyBuiltins.Lower` lowers ASCII letters only. The one comparison in the core is with
  the ASCII word `authorization`, and Python's full Unicode `lower()` gives that word
  from exactly the same names. So the lookup result is the same, but `Lower` is not a
  general model of `str.lower`.
- Event headers are a list of pairs. Dictionary keys are unique in Python but not in
  this list, so the model also covers inputs a real dictionary cannot hold.
- A `headers` value that is neither a mapping nor `null` (e.g. a list) is not
  modelled; `null` raises, as in the source.
- `AppConfig`'s settings sources (init arguments, environment, `.env`, `config.yaml`,
  their precedence) are the settings library's business. The model takes the final
  supplied values as `Overrides`.
- `DeployConfig.Load`: pydantic's wrapping of the validator's `ValueError` in a
  `ValidationError`, and its message text, are reduced to a single
  `PrivateSubnetWithoutNat` error.
- `nat_gateway_count` is an `int` field, so its `is not None` test is always true and
  is not modelled.
- `get_random_point` and the `random_land_points` table in `docs/workshop_setup.py` are
  not part of this model. They draw from a random source and are unrelated to the
  credential exchange.
- `DocsWorkshopSetup.SecondSetupShortCircuits` compares the second call's result with
  the first call's five database values only, not with all of its keys. The second
  call returns just those five.
- The broker's token check removes every occurrence of `Bearer ` from the header, not
  only the leading scheme. The model follows the code, and `RepeatedSchemeAccepted` and
  `TokenWithSchemeRefused` state the consequences.
- `EndToEnd.ClientExportsCredentials` states the round trip for `PGHOST`, `PGPORT` and
  `PGPASSWORD` only. The other five variables are covered generically by
  `EndToEnd.SetupWritesField` and `WorkshopConfig.SuccessBodyRenames`.
