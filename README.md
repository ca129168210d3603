# Centralized logging service: verified model of its core

The service is an Express application run as a Node cluster. It writes two log streams and stores
error records through Sequelize. This project models, in Dafny, the parts of it that compute
something:

- the **access stream**: the winston file-transport formatter (timestamp, upper-cased level,
  message, optional JSON meta on a second, tab-indented line) and its UTC timestamp;
- the **server stream**: the morgan line template and the custom `date`, `type`, `device` and
  `uuid` tokens;
- the **fault boundary**: the catch-all handler for unknown endpoints and the error middleware.
  The middleware logs the fault and then either replies 500 with a JSON envelope or, once
  headers are out, ends the body with a trailing JSON fragment;
- the **supervisor**: the master's fork loop, one worker per CPU, and its fail-fast exit policy;
- the **startup message** logged once the server listens;
- the **error-record schema**: the `action` enum, the attribute-to-column mapping, the non-null
  timestamps that default to now, `id` as primary key, and table `errorLogs`.

Files and modules:

- `wrappers.dfy` (`Wrappers`): `Option` and `Result`.
- `text.dfy` (`Text`): ASCII upper-casing, decimal rendering and parsing, zero padding, and
  splitting at a character.
- `clock.dfy` (`Clock`): the `YYYY-MM-DDTHH:mm:ss` rendering and its parser.
- `json.dfy` (`Json`): the `JSON.stringify` escaping of strings and the rendering of integers.
- `access_log.dfy` (`AccessLog`): the access-stream formatter and a reader for its lines.
- `server_log.dfy` (`ServerLog`): the morgan template as a compiled format.
- `fault_boundary.dfy` (`FaultBoundary`): the two handlers, run against a response object
  (`class Exchange`) whose fields the handlers update.
- `startup.dfy` (`Startup`): the startup message.
- `supervisor.dfy` (`Supervisor`): the master process as `class Master`.
- `error_model.dfy` (`ErrorModel`): the schema, record construction, and the primary-key
  constraint.

Configuration values come from `helpers/apiConfig.js`. `default_error_code` is not defined
there, so the not-found envelope's `responseCode` is `undefined`. The model carries the
configuration as a `Config` value (`FaultBoundary.ApiConfig` is the file's own). The
envelope rendering is proved for any message that needs no escaping, which the file's two
messages are (`FaultBoundary.ApiConfigPlain`).

Where the code and the design description differ, the model follows the code:

- `responseCode` is `undefined` in the not-found reply, and `JSON.stringify` drops it. The body is
  `{"responseDesc":"Sorry, invalid request"}`, sent with status 500, not 404.
- The worker-exit message is `"worker " + pid + "died"`, with no space before `died`.
- `action` has no `allowNull: false`, so a record may have no action.
- Nothing enforces `createdAt <= modifiedAt`. Both just default to the insertion time.
- `id` is declared with `default: Sequelize.UUIDV4`, not `defaultValue`. Sequelize does not
  read `default`, so no id is generated and a record without one is rejected by the
  primary-key constraint.
- morgan is mounted after the API routes. Its line is therefore produced only for requests that
  fall through the routes; the model gives the line's content, not which requests get one.

## Model

| member | source | states |
|---|---|---|
| Text.Upper | src/index.js:100 | `toUpperCase` keeps the length and maps each character with `UpperChar` (a-z to A-Z, all else unchanged) |
| Text.UpperKeepsOthers | src/index.js:100 | a character that is not a letter occurs in the upper-cased text exactly when it occurs in the original |
| Text.NatToString | src/index.js:244 | the decimal rendering of a number is non-empty and all digits, with a leading `0` only for zero |
| Text.ParseNatToString | src/index.js:244 | reading a rendered number back gives the number |
| Text.ZeroPad | src/index.js:94 | a padded field is all digits: exactly the width when the number fits, the plain rendering when it does not |
| Text.ParseZeroPad | src/index.js:94 | reading a zero-padded field back gives the number |
| Text.NatToStringLength | src/index.js:94 | a number below 10^k renders in at most k digits, so padding to k is exact |
| Text.SplitAt | src/index.js:97-106 | splitting at the first occurrence of `c`: none exactly when `c` is absent, otherwise prefix, `c`, suffix with no `c` in the prefix |
| Text.SplitAtFirst | src/index.js:97-106 | text of the form `a + c + b` with no `c` in `a` splits into `a` and `b` |
| Clock.ParseUtc | src/index.js:94 | the parser accepts exactly the well-formed 19-character `YYYY-MM-DDTHH:mm:ss` texts |
| Clock.FormatUtc | src/index.js:94 | `moment(...).utc().format("YYYY-MM-DDTHH:mm:ss")` on a UTC reading: four-digit year, then two-digit month, day, hour, minute and second with `-`, `-`, `T`, `:`, `:`. Its shape is stated by Clock.FormatShape and its inverse by Clock.ParseFormat |
| Clock.PadTwo | src/index.js:94 | a two-digit field is exactly two characters wide |
| Clock.PadFour | src/index.js:94 | a four-digit year is exactly four characters wide |
| Clock.FormatShape | src/index.js:93-95 | a formatted time is well-formed: separators `-`, `-`, `T`, `:`, `:` in their places, digits elsewhere |
| Clock.ParseFormat | src/index.js:93-95 | parsing a formatted time gives the time back |
| Json.EscapeChar | src/index.js:205 | a character needing no escape is kept as is; any other becomes a backslash sequence |
| Json.Escape | src/index.js:205 | text with no character needing escape is left unchanged |
| Json.PlainAppend | src/index.js:205 | joining two texts that need no escape gives a text that needs none |
| Json.Quote | src/index.js:205 | a serialised string starts and ends with a double quote |
| Json.QuotePlain | src/index.js:205 | a text that needs no escape serialises as itself between double quotes |
| Json.Number | src/index.js:200-205 | a serialised integer starts with a digit or a minus sign |
| AccessLog.LineLayout | src/index.js:96-107 | the line is the timestamp, a space, the upper-cased level, a space, the message or nothing; the `\n\t` suffix with the meta's JSON is present exactly when meta exists and has a key |
| AccessLog.HasMeta | src/index.js:103 | meta is attached only when it exists and has at least one key; used by AccessLog.LineLayout and AccessLog.ParseBodyRoundTrip |
| AccessLog.Head | src/index.js:98-102 | timestamp, a space, the upper-cased level, a space, the message or the empty text when undefined; stated by AccessLog.LineLayout |
| AccessLog.Tail | src/index.js:103-105 | `\n\t` and the meta JSON when meta has a key, otherwise nothing; stated by AccessLog.LineLayout |
| AccessLog.Line | src/index.js:96-107 | the formatter, head followed by tail; its layout is stated by AccessLog.LineLayout and its inverse by AccessLog.ParseLineRoundTrip |
| AccessLog.Timestamp | src/index.js:93-95 | the `timestamp` option, the UTC rendering of the current time; AccessLog.TimestampHasNoSpace and Clock.ParseFormat are about it |
| AccessLog.MessageMimicsMeta | src/index.js:102-105 | a message holding `\n\t` writes the same line as the shorter message with the rest as meta, so no reader can tell them apart |
| AccessLog.ParseLine | src/index.js:96-107 | a line read back has a timestamp and level without spaces and a message without a newline |
| AccessLog.ParseBody | src/index.js:102-105 | the message read back from a line body has no newline |
| AccessLog.ParseBodyRoundTrip | src/index.js:102-105 | a message without newline followed by the meta suffix reads back as that message and that meta's JSON, or no meta |
| AccessLog.ParseLineFields | src/index.js:98-101 | a timestamp and level without spaces are read back from the first two space-separated fields |
| AccessLog.ParseLineRoundTrip | src/index.js:96-107 | every line whose timestamp and level have no space and whose message has no newline reads back as its timestamp, upper-cased level, message (absent read back as empty) and meta |
| AccessLog.TimestampHasNoSpace | src/index.js:93-95 | the access-stream timestamp contains no space, so it is the line's first field |
| ServerLog.DateToken | src/index.js:129-131 | the server stream's `:date` is the same UTC rendering as the access stream's timestamp |
| ServerLog.TypeToken | src/index.js:136-138 | `:type` is the request headers as JSON; its place in the line is stated by ServerLog.LayoutFromUserAgent |
| ServerLog.DeviceToken | src/index.js:143-145 | `:device` is `DEVICE=` and the device as JSON; stated by ServerLog.LayoutFromUserAgent |
| ServerLog.UuidToken | src/index.js:150-152 | `:uuid` is `UUID=` and the `x-request-id` header; stated by ServerLog.LayoutFromUserAgent |
| ServerLog.TokenValue | src/index.js:129-152 | each template field's text: the four custom tokens and morgan's built-in ones; stated field by field by ServerLog.LineLayout |
| ServerLog.Template | src/index.js:169 | the format string compiled to literals and fields in order, continued by ServerLog.TemplateFromStatus and ServerLog.TemplateFromUserAgent |
| ServerLog.Render | src/index.js:167-172 | morgan's rendering of a compiled format: literals as they are, each field replaced by its token value; stated by the three layout lemmas |
| ServerLog.Line | src/index.js:167-172 | the server-stream line for one request; stated in full by ServerLog.LineLayout |
| ServerLog.LayoutFromUserAgent | src/index.js:169 | the end of the line: user agent, `" `, headers JSON, `DEVICE=` device JSON, `UUID=` request id, ` - `, response time, ` ms` |
| ServerLog.LayoutFromStatus | src/index.js:169 | the middle of the line: status, content length, quoted referrer, quoted user agent onwards |
| ServerLog.LineLayout | src/index.js:129-152 | the whole server line, field by field, with the four custom tokens in their places |
| FaultBoundary.EnvelopeJson | src/index.js:183-186 | a serialised envelope is enclosed in braces |
| FaultBoundary.ApiConfig | helpers/apiConfig.js:7-13 | the configured messages; no `default_error_code` key, so the code is undefined |
| FaultBoundary.NotFoundEnvelope | src/index.js:183-186 | `{responseCode: default_error_code, responseDesc: default_error_message}`; its JSON is stated by FaultBoundary.NotFoundBody and FaultBoundary.ServiceBodies |
| FaultBoundary.FaultEnvelope | src/index.js:199-202 | `{responseCode: 500, responseDesc: service_down_message}`; its JSON is stated by FaultBoundary.FaultBody and FaultBoundary.ServiceBodies |
| FaultBoundary.ApiConfigPlain | helpers/apiConfig.js:7-13 | the configured default error and service-down messages need no JSON escape |
| FaultBoundary.ServiceDownPlain | helpers/apiConfig.js:13 | the service-down message needs no JSON escape |
| FaultBoundary.NotFoundBody | src/index.js:182-187 | with an undefined code the body is `{"responseDesc":"…"}`; with a defined code it is `{"responseCode":…,"responseDesc":"…"}` |
| FaultBoundary.FaultBody | src/index.js:199-202 | the fault body is `{"responseCode":500,"responseDesc":"…"}` with the service-down message |
| FaultBoundary.ServiceBodies | src/index.js:182-210 | with the service configuration, the not-found body is exactly `{"responseDesc":"Sorry, invalid request"}` and the fault body exactly `{"responseCode":500,"responseDesc":"Oops, something went wrong, please try again later"}` |
| FaultBoundary.StripLeadingBrace | src/index.js:206 | `replace(/^({)/, "")` removes one leading brace if there is one and changes nothing otherwise |
| FaultBoundary.StripRemovesOneBrace | src/index.js:206 | only the first of two leading braces is removed |
| FaultBoundary.TrailingFragmentRestores | src/index.js:203-207 | the fragment written after headers are out is `",` and the envelope without its opening brace; putting the brace back gives the envelope |
| FaultBoundary.TrailingFragment | src/index.js:205-207 | `'",' + JSON.stringify(response).replace(/^({)/, "")`; stated by FaultBoundary.TrailingFragmentRestores |
| FaultBoundary.FaultEntry | src/index.js:193-198 | the access-stream line `logger.error` writes for a fault: level `error`, message `UUID=` + id + the rest; stated by FaultBoundary.FaultEntryPrefix |
| FaultBoundary.FaultEntryPrefix | src/index.js:193-198 | whatever follows the request id, a multi-line stack included, the fault entry starts with the timestamp, ` ERROR UUID=` and the request id |
| FaultBoundary.FaultEntryReadBack | src/index.js:193-198 | when the request id and the rendered remaining arguments have no newline, the fault entry reads back at level `ERROR` with `UUID=` and the request id leading the message, and with its meta |
| FaultBoundary.Exchange.constructor | src/index.js:182-210 | a fresh response: status 200, nothing sent, nothing logged |
| FaultBoundary.Exchange.Status | src/index.js:183 | `res.status` sets only the status |
| FaultBoundary.Exchange.SendJson | src/index.js:183 | `res.json` sends the body and finishes the response, or throws when headers are already sent |
| FaultBoundary.Exchange.End | src/index.js:207 | `res.end` finishes the response; a chunk after the response has finished is dropped |
| FaultBoundary.Exchange.Write | src/index.js:203 | a route streaming its reply sends the headers and appends its chunk, leaving the response open, which is the state in which the middleware takes its first branch |
| FaultBoundary.Exchange.LogError | src/index.js:193-198 | logging appends one access-stream entry and changes nothing in the response |
| FaultBoundary.Exchange.NotFound | src/index.js:182-187 | an unsent response gets status 500 and a body that is exactly the not-found envelope, with nothing logged; if headers were already sent, the JSON call throws |
| FaultBoundary.Exchange.HandleFault | src/index.js:192-210 | the middleware logs exactly one error entry first. With headers out it ends the body with the trailing fragment and keeps the status; otherwise it replies 500 with a body that is exactly the fault envelope |
| Startup.Capitalize | src/index.js:241-243 | the first character is upper-cased, the rest and the length are kept (ASCII only, see "Left out") |
| Startup.CapitalizeIdempotent | src/index.js:241-243 | capitalising twice is capitalising once |
| Startup.Message | src/index.js:241-244 | the capitalised environment name, ` server started at port ` and the port; stated by Startup.MessageReadBack |
| Startup.ServicePort | helpers/apiConfig.js:5 | with the configured port the message ends in ` server started at port 3333` |
| Startup.MessageReadBack | src/index.js:240-245 | after the capitalised environment name comes ` server started at port `, then only digits, which read back as the port |
| Startup.MessageHasNoNewline | src/index.js:240-245 | the message has no newline when the environment name has none |
| Startup.Line | src/index.js:239-245 | the `logger.info` line for the message, with no meta; stated by Startup.LineReadBack |
| Startup.LineReadBack | src/index.js:239-245 | the startup line reads back at level `INFO` with the startup message and no meta |
| Supervisor.ExitMessage | src/index.js:10 | `"worker " + pid + "died"`; stated by Supervisor.ExitMessageReadBack |
| Supervisor.ExitMessageReadBack | src/index.js:10 | the exit message is `worker `, the pid's digits, then `died` directly after the last digit; the pid reads back |
| Supervisor.Master.constructor | src/index.js:4 | the master starts with no workers, nothing printed, and no exit |
| Supervisor.Master.Fork | src/index.js:7 | one fork adds one worker |
| Supervisor.Master.Start | src/index.js:6-8 | the loop forks exactly `numCPUs` workers and prints nothing |
| Supervisor.Master.OnWorkerExit | src/index.js:9-12 | any worker exit, whatever its code or signal, prints the exit message and exits the master with code 1; no worker is forked |
| Supervisor.Supervise | src/index.js:4-12 | after the loop and the first worker exit: `numCPUs` workers forked, one exit message, exit code 1 |
| ErrorModel.ParseSeverity | src/models/errorModel.js:59-67 | a value is accepted only as one of the enum's labels, and rejected only when it matches none |
| ErrorModel.SeverityName | src/models/errorModel.js:60-66 | the label stored for each enum value; ErrorModel.SeverityRoundTrip reads it back |
| ErrorModel.SeverityAcceptsExactly | src/models/errorModel.js:60-66 | exactly `Critical`, `Major`, `Minor`, `Blocker` and `Neutral` are accepted |
| ErrorModel.SeverityRoundTrip | src/models/errorModel.js:60-66 | a stored label reads back as the value stored |
| ErrorModel.AttributeOfColumn | src/models/errorModel.js:27-80 | the attribute found for a column is stored in that column |
| ErrorModel.Column | src/models/errorModel.js:27-80 | each attribute's `field`, or its own name without one; one-to-one by ErrorModel.ColumnInjective |
| ErrorModel.ColumnRoundTrip | src/models/errorModel.js:27-80 | each attribute is found again from its column |
| ErrorModel.ColumnInjective | src/models/errorModel.js:27-80 | no two attributes share a column |
| ErrorModel.Build | src/models/errorModel.js:27-80 | a draft is rejected exactly when its action is outside the enum; otherwise missing timestamps become now, the action is the given label's value, and all else is copied |
| ErrorModel.BuildNulls | src/models/errorModel.js:69-80 | a built row is null for an attribute exactly when the draft gave nothing and the attribute has no `defaultValue`, so the timestamps are never null |
| ErrorModel.StoredNullsAllowed | src/models/errorModel.js:27-80 | a table with unique keys holds null only where the schema allows it: never in `id`, `createdAt` or `modifiedAt` |
| ErrorModel.BuildRoundTrip | src/models/errorModel.js:27-80 | a record's own values build that same record |
| ErrorModel.Insert | src/models/errorModel.js:27-31 | an insert succeeds exactly when the row has a key not already in the table, and then appends the row |
| ErrorModel.InsertKeepsKeysUnique | src/models/errorModel.js:29 | inserting keeps every key present and distinct |
| ErrorModel.Create | src/models/errorModel.js:23-87 | a create succeeds exactly when the draft builds and its id is present and not yet taken, and then appends the built row; an invalid action, a missing id and a duplicate id each give their own error |
| ErrorModel.CreateKeepsKeysUnique | src/models/errorModel.js:29 | creating keeps every key present and distinct |

## Left out

- File and stream I/O, log-folder creation, TLS certificates and the HTTP server itself. They are effects outside the computed text.
- The helmet, compression, device-capture, CORS header and body-parser middleware. They set headers or parse input and produce nothing the model's properties are about.
- Node's `os.cpus()`, fork, process exit and the cluster event loop. The CPU count, the pid, the exit code and the signal are parameters.
- The clock. The current time is a `Clock.DateTime` parameter. A year beyond four digits is outside `Clock.InRange`, because the format then no longer has fixed width.
- moment's formatting internals, leap seconds and time zones. Only the UTC field layout is modelled.
- winston's handling of extra arguments. The text it renders after the first argument is the parameter `rest`, and the meta object is `AccessLog.Meta`: its key count and its JSON.
- `JSON.stringify` beyond string escaping and integers. Headers, device and meta JSON are given as text.
- morgan's `-` for missing values and its built-in tokens. Their renderings are fields of `ServerLog.Request`.
- Request-id generation and uniqueness, device parsing, and `clearInterval(req.timer)`. None of them affects the text or state modelled.
- Text.Upper: covers ASCII only. Unicode case mapping is not modelled.
- Startup.Capitalize: goes through the ASCII-only `UpperChar`, so its "length kept" holds only for ASCII. JavaScript can lengthen a character (`"ß".toUpperCase()` is `"SS"`).
- Sequelize itself: queries, the migration, its automatic timestamp attributes and database column types. Only the declared schema and its primary-key constraint are modelled.
- helpers/http_status.js is not part of this model. `INTERNAL_SERVER_ERROR` is taken as 500.
- The top-level `catch` that logs a startup error. Its message embeds a directory path and an arbitrary exception text.
