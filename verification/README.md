# litestream-provider: replica configuration and request routing, in Dafny

This project models the core of a wasmCloud capability provider that runs Litestream
replication for one SQLite database and answers SQL requests from an actor.

It covers two parts. The first is the configuration path:
- the link definition is validated (`validateConfig`);
- a Litestream configuration is built from it (`StartLitestream`);
- each replica configuration is resolved into an S3 client description (`isURL`,
  `ReplicaType`, `ParseReplicaURL`, `newS3ReplicaClientFromConfig`, `NewReplicaFromConfig`);
- the database is assembled with its replicas, all-or-nothing (`expand`, `NewDBFromConfig`);
- the database is opened, and the metrics bind address is decided.

The second is the request path: `evaluateRequest` routes Execute, Query and Ping operations
and decides which reply goes on the request's channel. `SQLQuery` materialises columns and
rows.

Library calls whose code is not part of this model appear as the results they produce:
- `Platform.Env` bundles `url.Parse`, `path.Clean`, `s3.ParseHost`, `user.Current`,
  `filepath.Abs`/`Join`, `net.SplitHostPort`, `os.Stat`, `(*litestream.DB).Open`, and the
  engine's default settings.
- `Provider.Engine` gives what the SQLite driver yields for a statement on a database file.
- `Provider.Sqldb` gives the operation tags and the payload codec of the `sqldb` package.

Modules follow the source files:
- `ReplicaUrl`, `Helpers`: ls_helpers.go.
- `Config`, `Startup`: litestream.go. `LitestreamConfig`, declared in main.go, sits with
  the other records in `Config`.
- `Provider`: main.go.
- `Wrappers`, `Errors`, `Strings`, `Platform`: support modules.

`DB` and `Replica` are classes, because the source creates them and then sets their fields
and appends replicas step by step. The S3 client is a value: the source fills it completely
before anyone else sees it. `NewS3ReplicaClientFromConfig`, `NewReplicaFromConfig`,
`NewDBFromConfig`, `SQLQuery`, `EvaluateRequest`, `MetricsServer` and `StartLitestream` are
methods that follow the source's local updates and loops. Each is proved against the
functions and predicates that state what it computes (`S3Settings`, `ReplicaClient`,
`AssemblyError`, `Replica.Built`, `DB.Assembled`, `QueryOutcome`).

Behaviour of the code that a reader might not expect, which the model keeps:
- A Ping request gets no reply at all: the Ping branch sets an error text but never sends
  the response (main.go:128-129).
- A replica of type `file`, or any type other than `s3`, is rejected. The switch on the
  replica type has only an `s3` case; every other type falls to the unknown-type error
  (ls_helpers.go:134-141). So a `file:` URL never yields a replica.
- A replica path that looks like a URL is rejected whether or not a URL is given
  (ls_helpers.go:111-113).
- A URL host can turn path-style addressing on even when it is explicitly set to `false`
  (ls_helpers.go:185-187).
- The unknown-type error names the configured `Type` field, not the type that was chosen
  from the URL (ls_helpers.go:140).

## Model

| member | source | states |
|---|---|---|
| `ReplicaUrl.IsURLMatchesPattern` | ls_helpers.go:106-108 | the greedy check `IsURL` holds exactly when `^\w+://` matches: some non-empty run of ASCII word characters at the start is followed by `://` |
| `ReplicaUrl.WordRun` | ls_helpers.go:107 | the length of the longest prefix made of `\w` characters: all characters before it are word characters, the one at it is not |
| `ReplicaUrl.ParseReplicaURL` | ls_helpers.go:208-225 | a parse failure yields only the error, with empty scheme, host and path; otherwise the scheme is the parsed one and only an empty scheme is an error, which still returns host and path; `file` gives an empty host and the cleaned scheme-less URL; any other scheme gives the host and the cleaned path less one leading `/` |
| `Config.ReplicaType` | litestream.go:63-71 | never empty; a URL that parses with a non-empty scheme decides the type; a URL that fails to parse or has no scheme is ignored, and the type is then `Type` if set, else `file`; with no URL at all (which `url.Parse` reads as the zero URL) the type is `Type` if set, else `file` |
| `Helpers.Expand` | ls_helpers.go:17-37 | without a `~` or `~/` prefix the result is `filepath.Abs`'s, errors included; with one, it succeeds exactly when the user lookup succeeds with a non-empty home directory; a lookup error is passed on, an empty home is a no-home-directory error; `~` is the home directory and `~/x` is `x` joined onto it |
| `Helpers.S3Settings` | ls_helpers.go:146-206 | URL with path fails with the path conflict, checked first; URL with bucket fails with the bucket conflict; with a URL and neither conflict, the URL's parse error is returned, then a host without a bucket gives the missing-bucket error, and the client is built exactly when the URL parses and its host names a bucket; success implies a non-empty bucket; credentials and skip-verify are copied verbatim; each non-empty explicit path, bucket, region and endpoint survives on its own; the URL can turn path style on but never off |
| `Helpers.NewS3ReplicaClientFromConfig` | ls_helpers.go:146-206 | the step-by-step merge of local settings returns exactly the client or error that `S3Settings` describes |
| `Helpers.ExplicitOnlyIsProjection` | ls_helpers.go:154-205 | without a URL and with a bucket, the client's bucket, path, region, endpoint and credentials are the explicit fields, and its path style is the baseline |
| `Helpers.ExplicitOnlyNeedsBucket` | ls_helpers.go:190-193 | without a URL, resolution fails exactly when the bucket is empty, and then with the missing-bucket error |
| `Helpers.PathStyleFromEndpoint` | ls_helpers.go:157-162 | the path-style baseline is "an endpoint is set" unless the flag is given, in which case the given flag decides |
| `Helpers.URLFillsEmptyFields` | ls_helpers.go:164-188 | with a URL, a successful client takes path and bucket from the URL and host; region and endpoint come from the host only where the configuration left them empty; path style is the baseline OR the host's flag, so an explicit `false` can become `true` |
| `Helpers.ReplicaClient` | ls_helpers.go:109-144 | a URL-looking path is refused before anything else; then every type other than `s3` is refused with an error naming the `Type` field; a replica is built exactly when neither applies and the S3 settings resolve; once both checks pass, the result, errors included, is that of the S3 resolution |
| `Helpers.ExplicitS3ReplicaBuilt` | ls_helpers.go:109-144 | a replica of type `s3` with no URL, a bucket and a path that is not URL-like is built, and its client is exactly the explicit fields with the baseline path style |
| `Helpers.FileReplicaRejected` | ls_helpers.go:134-141 | a replica whose type resolves to `file` is never built |
| `Helpers.NewReplicaFromConfig` | ls_helpers.go:109-144 | returns an error exactly when `ReplicaClient` does, and that error; otherwise a fresh replica of the given database with the configured name, each configured interval overriding the default, and the resolved S3 client |
| `Helpers.DB.Open` | litestream.go:121-124 | the engine's open error for the database path is returned unchanged, and the database is open exactly when there is none |
| `Helpers.AssemblyError` | ls_helpers.go:38-71 | a path-expansion error is returned as is; there is no error exactly when the path expands and every replica configuration resolves |
| `Helpers.NewDBFromConfig` | ls_helpers.go:38-71 | the error is the expansion error, else the first failing replica's error, and then no database is returned; on success a fresh database at the expanded path, each configured setting overriding the default, and one replica per configuration in order |
| `Errors.FirstError` | ls_helpers.go:62-68 | no error exactly when every step passes; otherwise the error of a step that fails with every earlier step passing |
| `Errors.FirstErrorAt` | ls_helpers.go:62-68 | the first failing step decides the error of the whole sequence |
| `Strings.ToLower` | main.go:188 | same length, and each character is its ASCII lower-case form |
| `Provider.ValidateConfig` | main.go:222-245 | succeeds exactly when all five keys `URL`, `AccessKeyID`, `SecretAccessKey`, `S3URL`, `DBLocation` are present with non-empty values; each field of the result is the value under the key of the same name |
| `Provider.MissingS3URLIsFatal` | main.go:223-236 | a link definition without a non-empty `S3URL` ends the provider before anything is served |
| `Provider.SQLExecuteIgnoresDatabase` | main.go:137-157 | the request's database name plays no part: two requests that differ only in it get the same outcome, that of the statement on the configured database file |
| `Provider.Columns` | main.go:186-191 | one column per driver column, in order, with its name and its lower-cased declared type |
| `Provider.ScanAll` | main.go:196-204 | succeeds exactly when every row scans, with one row per scan, in order; otherwise fails with the error of the first failing scan |
| `Provider.ScanAllStopsAt` | main.go:196-201 | the first scan error aborts the collection with that error |
| `Provider.QueryOutcome` | main.go:159-220 | a query yields a result or an error, never both and never neither; a result implies no open, query or cursor error, column types available, every row scanned, the lower-cased columns, the rows as the codec encodes the scanned rows, and a row count equal to the number of rows; on failure the error is that of the earliest failing step: opening, querying, the cursor, the column types, the first failing scan, then the row encoding |
| `Provider.QueryOutcomeAsWritten` | main.go:174-177 | as written, a cursor error after a successful query yields neither result nor error; without a cursor error it agrees with `QueryOutcome` |
| `Provider.RowsErrorSwallowed` | main.go:167-177 | a session whose cursor reports an error: as written the caller sees nothing; corrected, it sees the error |
| `Provider.CursorErrorReplyAsWritten` | main.go:110-127 | for a query whose cursor fails, the reply as written carries no result and an error only if decoding the statement failed; with the cursor error returned, the reply carries that error |
| `Provider.SQLQuery` | main.go:159-220 | the loops over column types and rows return exactly `QueryOutcome` of the session the query opens on the configured database file |
| `Provider.EvaluateRequest` | main.go:87-135 | at most one reply, and none exactly for Ping; Execute and Query reply with the encoded result and, as error, the execution error, else the decoding error (Query through `QueryReply` of the corrected `QueryOutcome`); both always run on `DBLocation`; any other operation gets one reply with only `Invalid SQLdb Operation` |
| `Startup.BuildConfig` | litestream.go:95-112 | the configuration holds the metrics address, no exec command, no global credentials, and exactly one database, at `DBLocation` with no overrides, holding exactly one replica whose URL is `S3URL` and whose credentials are the provider's, everything else empty |
| `Startup.StartupReplicaFromURL` | litestream.go:95-104 | the provider's replica is accepted exactly when `S3URL` is non-empty, parses with scheme `s3` and its host names a bucket; the client then takes bucket, region, endpoint and path style from the host and the path from the URL |
| `Startup.MetricsServer` | litestream.go:140-155 | no address, no server; an address without a port is fatal; otherwise the server listens on the address as given, and a host-less address is logged as `localhost:<port>` |
| `Startup.StartLitestream` | litestream.go:87-160 | a failed stat of `DBLocation` is returned before anything is built; otherwise the error is that of the first database that fails to build or open; the databases returned were each built as configured and opened, all of them on success; the metrics endpoint is decided only on success |

## Left out

- I/O and library internals are represented by their results. This covers `os.Stat`,
  `(*litestream.DB).Open`, the SQLite driver, `url.Parse`, `path.Clean`, `s3.ParseHost`,
  `user.Current`, `filepath.Abs`/`Join`, `net.SplitHostPort` and the `sqldb` codec. Their
  own behaviour is not modelled.
- `main` is not modelled: link handling, `provider.Init`, `ListenForActor`, the shutdown
  goroutine and the goroutine per request. It is concurrency and message passing with no
  decision logic of its own.
- `init` (log file setup) and all logging are not modelled. This includes the per-replica
  summary lines (litestream.go:128-138).
- The Prometheus HTTP server itself is not modelled: only the choice of listen and logged
  address. A failure of `ListenAndServe` is only logged by the source.
- The replication engine (`litestream.NewDB`, `NewReplica`) is not modelled. Its default
  settings are parameters, and durations are integers.
- `NewDBFromConfigWithPath` is commented out in the source and not modelled. The
  `MonitorDelayInterval` and `ShadowRetentionN` fields it uses, and the ABS and SFTP fields
  of `ReplicaConfig`, are never read by the core and are not modelled. `Config.Exec` is
  carried (and left empty by `BuildConfig`) but never read: no subprocess is modelled.
- `EvaluateRequest` assumes `sqldb.DecodeStatement` returns a statement value alongside
  its error, so execution proceeds after a decoding error. If it returns a nil pointer
  instead, the source would panic; that case is not modelled.
- `Provider.SQLExecute` treats execution as the engine's result. `MustBegin` and `MustExec`
  panic on an SQL error instead of returning it, and the `Commit` error is ignored; neither
  is modelled.
- The row loop of `SQLQuery` (main.go:196-204) never checks `rows.Err()` after `rows.Next()`
  returns false. An error that ends the iteration early therefore yields a truncated
  result reported as success. The model cannot tell such an early end from the last row:
  `QuerySession.scans` holds only the rows the driver delivered.
- `ReplicaType` and `ExplicitS3ReplicaBuilt` use `Platform.ParsesEmptyAsZero`, the one
  property of `url.Parse` the core relies on for a replica without a URL: the empty
  string parses as the zero URL.
- `Strings.ToLower` lower-cases ASCII letters only. Non-ASCII case mapping is not modelled.
- `rowCount` and `RowsAffected` are `uint64` in the source; the model uses unbounded `nat`.
- Errors are constructors of `Errors.Error`, not formatted message strings.
- The `error` result of `evaluateRequest` is always nil and is not modelled.
- `StartLitestream`'s "no databases specified" branch cannot be taken, because the built
  configuration always holds one database (`Startup.BuildConfig`). The method omits it.

## Findings

| source | as written | input that shows it | evidently intended | confidence | as-written member | corrected member |
|---|---|---|---|---|---|---|
| main.go:174-177 | when `rows.Err()` is non-nil, `SQLQuery` returns the variable `err` of the previous call, which is nil there, so it returns neither a result nor an error; the actor gets a reply with no result, whose error is the decoding error if decoding the statement failed and empty otherwise | a query whose cursor reports an error after `Queryx` succeeded | return `rows.Err()`, so a query yields a result or an error | not executed; high from reading | `Provider.QueryOutcomeAsWritten`, `Provider.RowsErrorSwallowed`, `Provider.CursorErrorReplyAsWritten` | `Provider.QueryOutcome`, `Provider.SQLQuery` (used by `Provider.EvaluateRequest`) |
