# zero2prod core: e-mail client and layered configuration, in Dafny

This project models the two pieces of logic of a newsletter back end that
carry real behaviour:

- **Configuration resolution** (`src/configuration.rs`): the settings
  records, the deployment `Environment` (`Local`/`Production`) with its
  printer `as_str` and its case-insensitive parser `try_from`, the choice of
  environment from `APP_ENVIRONMENT` (default `"local"`), the order in which
  the three configuration sources are stacked (the `base` file, the file
  named after the environment, `APP_`-prefixed environment variables), and
  the derived values: the sender address, the client timeout and the two
  Postgres connection URLs.
- **The transactional e-mail client** (`src/email_client.rs`): the client
  value built by `EmailClient::new`, the request `send_email` builds (a POST
  to `base_url + "/messages"`, an `Authorization: Basic <api_key>` header, a
  JSON body with the members `from`, `to`, `subject`, `text`, `html`), and
  how the transport's outcome becomes `Ok(())` or an error.

Files: `wrappers.dfy` (Option, Result), `text.dfy` (ASCII lowercasing,
decimal numbers, prefix tests, splitting), `domain.dfy` (the validated
address and its abstract parser), `configuration.dfy`, `email_client.dfy`.
Everything is pure: the Rust code mutates nothing after construction, so
each entity is a datatype and each operation a function, with lemmas for
the properties that relate several calls.

Modelling choices:

- The address parser of the `domain` module is not part of this model. It
  is a parameter (`Domain.EmailParser`): which strings it accepts and what
  error text it gives for the others. An accepted address is assumed to be
  kept verbatim.
- The HTTP transport is a parameter: a function from the built request to
  an `Outcome`, either `Response(status, delayMs)` or `TransportError`. A
  response counts only if its delay is strictly below the client's timeout.
  `error_for_status` turns 400–599 into an error; every other status,
  1xx and 3xx included, is success, not only 2xx.
- Configuration sources are maps from dotted key paths
  (`"application.port"`) to values. The merge is last-wins, key by key; this
  is the behaviour assumed of the `config` crate. A settings file that is
  missing is an error, because `config::File::from` makes a file required.
- Environment-variable names are mapped to keys as the source's own comment
  describes (`APP_APPLICATION__PORT` addresses `application.port`): the
  prefix `APP_` in any letter case, `__` read as `.`, the rest lowercased.
  Of two variables addressing one key the later one wins.
- An unsupported `APP_ENVIRONMENT` makes the Rust code panic through
  `expect`; the model returns `Aborted(message)` before any source is
  consulted.
- `to_lowercase` is modelled on ASCII letters only.
- Integer widths are subset types (`u16`, `u64`); the HTTP status is
  100..999 as the transport represents it.

## Model

| member | source | states |
|---|---|---|
| `Text.ToLower` | src/configuration.rs:62 | lowercasing keeps the length and lowercases every character in place |
| `Text.ToLowerEqualIff` | src/configuration.rs:62 | two inputs lowercase to the same string exactly when they differ only in ASCII letter case |
| `Text.DecimalRoundTrip` | src/configuration.rs:110-114 | the decimal rendering of the port reads back as the same number |
| `Text.SplitFirstOf` | src/configuration.rs:103-108 | splitting at the first separator recovers the part before and after it when the first part is free of it |
| `Domain.Parse` | src/configuration.rs:35-37 | the abstract address parser accepts exactly what its validity test accepts, keeps an accepted address verbatim, and returns the parser's error text otherwise |
| `Configuration.Sender` | src/configuration.rs:35-37 | the sender is valid exactly when the configured address parses; the validated address is the configured string; otherwise the parser's error |
| `Configuration.FromMillis` | src/configuration.rs:39-41 | `Duration::from_millis` is total over u64, keeps the sub-second part below one second and lasts exactly ms × 1,000,000 ns |
| `Configuration.FromMillisRoundTrip` | src/configuration.rs:39-41 | reading the duration back in milliseconds gives the configured value |
| `Configuration.Timeout` | src/configuration.rs:39-41 | the client timeout is exactly `timeout_milliseconds` long |
| `Configuration.AsStr` | src/configuration.rs:50-55 | every environment has a non-empty name |
| `Configuration.AsStrLowercase` | src/configuration.rs:50-55 | both environment names are already lowercase |
| `Configuration.AsStrInjective` | src/configuration.rs:50-55 | distinct environments have distinct names, so they select distinct files |
| `Configuration.TryFrom` | src/configuration.rs:61-69 | an accepted input lowercases to the name of the environment returned; a rejected input names no environment and the error quotes the lowercased input followed by the fixed text |
| `Configuration.TryFromAsStr` | src/configuration.rs:50-64 | parsing the printed name of an environment returns that environment |
| `Configuration.TryFromCaseInsensitive` | src/configuration.rs:62-64 | the input yields an environment exactly when it equals that environment's name up to ASCII case |
| `Configuration.TryFromRespectsCase` | src/configuration.rs:61-69 | inputs equal up to ASCII case give the same result, error text included |
| `Configuration.TryFromRejectsStaging` | src/configuration.rs:65-68 | `"Staging"` is rejected with a message quoting `staging` in lowercase |
| `Configuration.SelectEnvironment` | src/configuration.rs:81-84 | an unset `APP_ENVIRONMENT` selects `Local`; a set one is parsed by `TryFrom` |
| `Configuration.MergeLastWins` | src/configuration.rs:86-96 | in the stacked sources a key takes its value from the latest source that defines it |
| `Configuration.MergeKeys` | src/configuration.rs:86-96 | the merged configuration has exactly the keys that some source defines |
| `Configuration.EnvKey` | src/configuration.rs:94-95 | a variable is a configuration source exactly when its name starts with `APP_` in any case, and the key it addresses is lowercase |
| `Configuration.SeparatorToDotPlain` | src/configuration.rs:94-95 | a name without `__` is kept as it is, single underscores included |
| `Configuration.SeparatorToDotSkip` | src/configuration.rs:94-95 | a segment followed by `__` is kept and the separator becomes `.`, provided the segment has no `__` and does not end in `_` |
| `Configuration.SeparatorToDotJoin` | src/configuration.rs:94-95 | joining path segments with `__` and translating the separator gives the segments joined with `.`, for segments that may contain single underscores but no `__` and no trailing `_` (`a_` + `__` + `b` would read back as `a._b`) |
| `Configuration.EnvKeyOfPath` | src/configuration.rs:94-95 | `APP_` followed by a key path joined with `__` addresses that path, lowercased; segments such as `email_client` or `timeout_milliseconds` may contain single underscores |
| `Configuration.TimeoutOverrideKey` | src/configuration.rs:94-95 | `APP_EMAIL_CLIENT__TIMEOUT_MILLISECONDS` addresses `email_client.timeout_milliseconds` |
| `Configuration.EnvironmentSourceHas` | src/configuration.rs:95 | each recognised variable sets its key, unless a later variable addresses the same key |
| `Configuration.EnvironmentSourceKeys` | src/configuration.rs:95 | every key of the environment source is addressed by some recognised variable |
| `Configuration.Layers` | src/configuration.rs:86-95 | the sources are the base file, the file named `as_str(environment)` and the environment variables, in that order; a missing file is an error, the base file first |
| `Configuration.GetConfiguration` | src/configuration.rs:74-96 | an unsupported environment aborts regardless of the files; otherwise resolution succeeds exactly when both files exist |
| `Configuration.DefaultsToLocal` | src/configuration.rs:81-92 | without `APP_ENVIRONMENT` the base file, the `local` file and the variables are stacked |
| `Configuration.EnvironmentVariableWins` | src/configuration.rs:86-96 | a key set by an environment variable overrides both files |
| `Configuration.EnvironmentFileOverridesBase` | src/configuration.rs:86-92 | a key in the environment's file and in no variable takes the file's value over the base value |
| `Configuration.BaseValueKept` | src/configuration.rs:86-96 | a key only the base file defines keeps its base value |
| `Configuration.ConnectionStringWithoutDb` | src/configuration.rs:110-115 | the URL without a database starts with `postgres://` |
| `Configuration.ConnectionString` | src/configuration.rs:103-115 | the full URL is the URL without a database followed by `/` and the database name |
| `Configuration.ConnectionStringRoundTrip` | src/configuration.rs:103-108 | when user and host contain no `:` and the password no `@`, reading the URL back gives user, password, host, port and database name unchanged |
| `Email.New` | src/email_client.rs:23-37 | construction stores base URL, sender and key unchanged and gives the transport the requested timeout |
| `Email.LookupFindsFirst` | src/email_client.rs:82-95 | the model's first-match lookup finds nothing exactly when no entry has that name, and otherwise the value of the first entry with that name; on the bodies built here it agrees with `body.get` because the five member names are distinct (`Email.MemberNamesDistinct`) |
| `Email.MemberNamesDistinct` | src/email_client.rs:6-12 | the five members are serialised under five distinct names, their field names |
| `Email.BodyFieldsLookup` | src/email_client.rs:6-12 | the body's members are `from`, `to`, `subject`, `text`, `html` in declaration order, each holding the field of the same name |
| `Email.BuildRequest` | src/email_client.rs:46-59 | the request is a POST to `base_url + "/messages"` with `Authorization: Basic <api_key>`, a JSON content type and the body built from the client and the arguments |
| `Email.RequestBody` | src/email_client.rs:48-54 | `from` is the client's sender, `to` the recipient, and `html` and `text` land under their own names although the parameters come in the order subject, html, text |
| `Email.BasicCredential` | src/email_client.rs:58 | a Basic credential is read exactly from a value that starts with `Basic ` |
| `Email.AuthorizationCarriesKey` | src/email_client.rs:58 | the credential read from the header is the configured key verbatim, not an encoding of it |
| `Email.NoSlashNormalisation` | src/email_client.rs:46 | a base URL ending in `/` gives a URL ending in `//messages` |
| `Email.RequestMatchesMock` | src/email_client.rs:120-138 | every built request meets the test's matchers: POST, path `/messages`, an `Authorization` header, a JSON content type and all five body members |
| `Email.Classify` | src/email_client.rs:56-64 | the outcome is success exactly for a response that arrives in time with a status outside 400–599; a transport failure is an error |
| `Email.SendEmail` | src/email_client.rs:39-65 | sending succeeds exactly when the transport's outcome for the built request is a timely response with a non-error status |
| `Email.TestTimeout` | src/email_client.rs:110-117 | the test client's timeout lasts 200 ms |
| `Email.SucceedsOn200` | src/email_client.rs:141-156 | a prompt 200 gives `Ok(())` |
| `Email.FailsOn500` | src/email_client.rs:159-174 | a 500 gives an error |
| `Email.TimesOutOnSlowServer` | src/email_client.rs:177-195 | a 200 delayed 180 s against a 200 ms timeout gives a timeout error |
| `Email.ErrorsShareOneKind` | src/email_client.rs:61-62 | a rejected message and a transport failure both reach the caller as the same error type |
| `Email.RepeatedSendsShareClientValues` | src/email_client.rs:39-46 | sends through one client use the same URL, the same headers and the same sender, whatever the message |
| `Email.ClientFromSettings` | tests/api/helpers.rs:48-60 | a client can be built from settings exactly when the sender parses, and the parser's error is reported otherwise |
| `Email.ConfiguredRequest` | tests/api/helpers.rs:48-60 | a client built from settings posts to the configured base URL, with the configured key and sender, and times out after the configured milliseconds |

## Left out

- Reading files and process environment variables, the configuration directory and file-format parsing: the files are a map from name to key/value source and the variables a sequence of name/value pairs.
- Deserialising the merged source into `Settings` (`try_deserialize`, type checks such as ports fitting in u16): `Configuration.GetConfiguration` stops at the merged key/value map.
- The `config` crate's merge rule is assumed (last wins, key by key); the crate's exact prefix-separator handling is taken from the source's own comment.
- `Configuration.GetConfiguration`: the panic raised by `expect` on an unsupported environment is modelled as the `Aborted` error value, not as process termination.
- `Text.ToLower`: covers ASCII letters only; Unicode case mapping of `to_lowercase` is not modelled.
- `Domain.Parse`: the address validation rules and error texts of the `domain` module are not part of this model; they are parameters.
- The reqwest transport, connection reuse, redirects, DNS and asynchronous suspension: only the outcome the transport reports is modelled.
- `Email.Classify`: whether a response arriving exactly at the timeout counts is not determined by the source; the model treats it as timed out.
- JSON escaping of strings: the body is modelled as an ordered list of (member, value) pairs, each member serialised under its field name.
- Logging, the database pool, route registration, the server start-up and the confirmation handler stub.
