# go-mono-template, modelled in Dafny

go-mono-template is a Go monorepo of small NATS services (an adder and a
subtractor) built on shared packages. This project models the logic the
repository writes itself and proves properties of it. Every call into a
third-party library (the nats.go client, cobra, zerolog, the JSON encoder)
is replaced by an abstract operation whose outcome is a parameter.

- **NATS client wrapper** (`Nats`, nats.dfy):
  - how `Connect` builds its dial options, including reconnect-buffer selection, credentials and TLS;
  - the nil guard of `IsConnected`;
  - the three retrying calls, which share one loop. `retries` caps the total number of attempts, and after the i-th failure the loop sleeps i seconds;
  - `NewMsgWithHeaders`.
  
  Each transport call is an attempt-indexed outcome. Sleeps are recorded as a list of delays in seconds.
- **Middleware** (`Middleware`, middleware.dfy): `UseMiddleware` is a loop, proved equal to a left fold. `Log` is a handler wrapper that reads the package-level `LogSource`/`LogEnv` each time a message is handled. These two variables are one shared `LogLabels` object. What a handler does is a list of effects: debug entries, then the call of the service handler.
- **Subtractor service** (`SubtractorSpec`, subtractor_spec.dfy, and `Subtractor`, subtractor.dfy):
  - reply and error routing (`publishData`, `publishError`, `subHandlerReturn`);
  - the startup chain (`setupNats`, `natsSubscribe`, `natsSubscribeTo`);
  - `New`, `Start`, `Stop` and the `cleanup` teardown.
  
  The `App` class records each call it makes on a collaborator in `calls`. Every method is proved to make exactly the calls that a specification function describes, and the routing and ordering properties are proved about those functions. The caller's header map, which `publishData` mutates, is the class `HeaderMap`, so the aliasing between the reply and the error report is modelled.
- **Logger** (`Logger`, logger.dfy): the case-insensitive level lookup with its Info default, `New`, `AddMeta`, and which fields `Zerolog` adds to an event.
- **CLI** (`Cli`, cli.dfy): the package-level root command, `Init` and `AddCommand`.
- **Pointer helpers** (`Ref`, ref.dfy): the scalar helpers, and `Strings`, whose pointers alias the input slice's elements.

Three facts about the code that a reader might not expect:
- **Middleware order.** `UseMiddleware` applies the middleware in list order, so the last middleware listed becomes the outermost wrapper.
- **Backoff.** The retry sleeps grow linearly (1, 2, ... seconds), although the doc comments of the retry methods (pkg/nats/nats.go:169-170, 197 and 224) call the backoff "exponential".
- **Error queue.** The error queue is written whenever the reply's `publishData` fails. That covers a failure to encode the response as well as a failure to publish it. A handler error alone never reaches the error queue: it only sets `X-Error` on the reply.

The subtractor's configuration type, its `appID` and its `Run` are defined in files of services/subtractor/app/v1 that are not part of this model. The model assumes the configuration has the shape of the adder's (services/adder/app/v1/config.go):
- `App.Env`;
- `App.Nats.{URL, Name, User, Pass, TLS}`;
- `App.Queues.{Publish.{Default, Errors}, Subscribe.{Queue, Group}}`;
- `Logger.{Source, Level, Format}`.

## Model

| member | source | states |
|---|---|---|
| Nats.DialOptionsFromParts | pkg/nats/nats.go:76-105 | The appended parts form a valid dial option list. It starts with name, the 10 s timeout, both handlers and unlimited (-1) reconnects. It holds one reconnect buffer: 5 MiB when configured as 0, otherwise the configured value, even a negative one. User info appears iff user and password are both non-empty. Cert/key and CA appear iff TLS is enabled. |
| Nats.FixedOptionsHold | pkg/nats/nats.go:76-95 | The five fixed options come first, followed by exactly one reconnect buffer size: 5 MiB when configured as 0, otherwise the configured value. |
| Nats.CredentialOptionsHold | pkg/nats/nats.go:96-98 | User info is present iff user and password are both non-empty, and it holds the configured pair. |
| Nats.TlsOptionsHold | pkg/nats/nats.go:99-105 | The client certificate and the root CA options are present iff TLS is enabled. |
| Nats.Client.ConnectOptions | pkg/nats/nats.go:76-105 | The list built by successive appends meets every rule above. |
| Nats.Client.Connect | pkg/nats/nats.go:74-108 | A failed dial returns its error and leaves the connection nil. A successful dial stores a connection to the configured URL made with valid options. |
| Nats.Client.constructor | pkg/nats/nats.go:69-71 | A new client holds its configuration and has no connection. |
| Nats.Client.IsConnected | pkg/nats/nats.go:116-122 | False when there is no connection; otherwise the connection's own state. |
| Nats.Client.HeadersSupported | pkg/nats/nats.go:125-127 | Requires a connection, because the source has no nil guard. Reports the server's header support. |
| Nats.Client.Close | pkg/nats/nats.go:247-250 | Afterwards the client is not connected; a nil connection is left nil. |
| Nats.Retrying | pkg/nats/nats.go:175-189 | Every run makes at least one attempt and sleeps one delay fewer than it attempts. It ends with a reply exactly when it ends without an error. |
| Nats.RetryingStep | pkg/nats/nats.go:183-187 | A failure below the cap is followed by a sleep of i+1 seconds and the rest of the run. |
| Nats.WithRetries | pkg/nats/nats.go:176-188 | The loop's reply, count, error, attempts and delays are those of the retry specification. |
| Nats.RetryingShape | pkg/nats/nats.go:169-189 | The delays are 1, 2, ... seconds, one between two consecutive attempts. Every attempt but the last failed. A success is returned at once with the number of failures before it. A failure is returned only once the cap of attempts is reached. |
| Nats.RetryingAllFail | pkg/nats/nats.go:175-189 | Failing from attempt i up to cap n: every attempt up to the cap is made, and the last error is returned with count n. |
| Nats.AlwaysFailing | pkg/nats/nats.go:175-189 | With retries n >= 1 and an operation that always fails: n attempts, count n, the last error, and delays 1..n-1. |
| Nats.RetryingFirstSuccess | pkg/nats/nats.go:178-182 | A first success at attempt k, counted from attempt i on, returns count k and the reply, and makes no further attempt. |
| Nats.FirstSuccess | pkg/nats/nats.go:178-182 | If the first success is on attempt k+1 within the cap, the result is count k with its reply after exactly k+1 attempts. A success on the first try returns 0 after one attempt. |
| Nats.SingleAttempt | pkg/nats/nats.go:183-186 | With retries <= 1 exactly one attempt is made and nothing is slept. A failure returns count 1. |
| Nats.TotalDelays | pkg/nats/nats.go:187 | The delays 1..m add up to m(m+1)/2 seconds. |
| Nats.AlwaysFailingSleepTotal | pkg/nats/nats.go:169-189 | n failing attempts sleep n(n-1)/2 seconds in all, with no sleep before the first attempt. |
| Nats.Client.PublishWithRetries | pkg/nats/nats.go:175-189 | Returns the count and error of the retry specification over the publish outcomes, with its attempts and delays. |
| Nats.Client.PublishMsgWithRetries | pkg/nats/nats.go:202-216 | The same, for publishing a message. |
| Nats.Client.RequestMsgWithRetries | pkg/nats/nats.go:229-244 | The same, for requests. The response is the reply on success and nil on exhaustion. |
| Nats.NewMsgWithHeaders | pkg/nats/nats.go:263-270 | Keeps the subject, with an empty reply and no data. Every input key is a header holding exactly its input value, and there are no other headers. |
| Middleware.UseMiddleware | pkg/nats/middleware/middleware.go:11-17 | The loop returns the left fold of the middleware over the handler. |
| Middleware.UseAllAppend | pkg/nats/middleware/middleware.go:11-17 | Folding a ++ b folds b over the result of folding a. |
| Middleware.UseAllLast | pkg/nats/middleware/middleware.go:12-14 | The last middleware listed is the outermost wrapper. |
| Middleware.UseAllShort | pkg/nats/middleware/middleware.go:11-16 | No middleware returns the handler unchanged; one middleware m returns m(handler). |
| Middleware.Log | pkg/nats/middleware/zerolog.go:19-31 | The returned handler adds exactly one layer around the same service handler. On every message and under any labels it emits one debug entry (LogSource, LogEnv, the headers, the subject) and then does what `next` does. |
| Middleware.LogLabels.constructor | pkg/nats/middleware/zerolog.go:11-16 | The defaults are "default-log-source" and "". |
| Middleware.Handle | pkg/nats/middleware/zerolog.go:19-32 | Handling a message does what the handler's effect list says. The labels are read when the message is handled, and every header is gathered into the debug entry. |
| Middleware.LogForwards | pkg/nats/middleware/zerolog.go:19-32 | `Log(next)` first emits one debug entry with name = LogSource, env = LogEnv, every header and the subject. Then it does exactly what `next` does with the same message. |
| Middleware.HandledOnce | pkg/nats/middleware/zerolog.go:19-32 | However many `Log` layers wrap it, the service handler is called exactly once, with the unmodified message, after all the debug entries. |
| SubtractorSpec.ClientConfig | services/subtractor/app/v1/app.go:29-40 | The client configuration leaves the reconnect buffer at 0, so the 5 MiB default applies at connect. |
| SubtractorSpec.PublishDataContract | services/subtractor/app/v1/publish.go:27-49 | X-Error is set in the caller's map exactly when withErr is set, and nothing else changes. An encoding error is returned and nothing is published. Otherwise one message is published (subject, the headers, the encoded payload) and the publish error, if any, is returned. |
| SubtractorSpec.PublishErrorContract | services/subtractor/app/v1/publish.go:10-25 | A nil error does nothing. Otherwise the error's message, as `nats.Error`, is published to the errors queue with the given headers. |
| SubtractorSpec.ReplySubject | services/subtractor/app/v1/publish.go:57-60 | The request's reply subject when it is non-empty, else the default publish queue. |
| SubtractorSpec.ReplyOnlyWhenReplySucceeds | services/subtractor/app/v1/publish.go:51-67 | When the reply is encoded and published, it is the only message published, whether or not the handler failed. The reply carries the request's first header values plus X-Error for a handler error. |
| SubtractorSpec.ErrorQueueOnReplyPublishFailure | services/subtractor/app/v1/publish.go:62-66 | When publishing the reply fails, the failure is then sent to the errors queue. It is sent with the same headers, including the X-Error the reply step set. |
| SubtractorSpec.ErrorQueueOnReplyEncodingFailure | services/subtractor/app/v1/publish.go:62-66 | When the response cannot be encoded, nothing is replied and the encoding error goes to the errors queue. |
| SubtractorSpec.StartupConnectFails | services/subtractor/app/v1/setup-nats.go:13-15 | A connect error is returned at once: no headers check, no subscribe, labels unchanged. |
| SubtractorSpec.StartupHeadersUnsupported | services/subtractor/app/v1/setup-nats.go:17-21 | Unsupported headers return ErrNATSServerHeadersNotSupported; nothing is subscribed and the labels are not set. |
| SubtractorSpec.StartupWithoutQueue | services/subtractor/app/v1/setup-nats.go:30-44 | An empty subscribe queue is a success without a subscription, whose calls are connect, headers check and the label assignment. |
| SubtractorSpec.StartupSubscribes | services/subtractor/app/v1/setup-nats.go:30-60 | The calls run connect, headers check, SetLabels(Logger.Source, App.Env), then the subscribe of the non-empty queue with group App.Nats.Name and the handler wrapped in exactly one `Log`. A subscribe error is returned and leaves the subscription nil. |
| SubtractorSpec.StartupLabels | services/subtractor/app/v1/setup-nats.go:9-33 | The labels are set iff the connect succeeded and the server supports headers. |
| SubtractorSpec.LabelsBeforeSubscribe | services/subtractor/app/v1/setup-nats.go:31-38 | Every subscribe call comes immediately after the assignment of LogSource and LogEnv. |
| SubtractorSpec.SubscribeOnlyAfterChecks | services/subtractor/app/v1/setup-nats.go:9-28 | A subscription is made only after a successful connect and headers check, and only for a non-empty queue. |
| SubtractorSpec.SubscriptionOutcome | services/subtractor/app/v1/app.go:70-84 | Unsubscribe or Drain on a nil subscription fails with the library's invalid-subscription error. |
| SubtractorSpec.CleanupOrder | services/subtractor/app/v1/app.go:65-90 | Whatever fails, teardown does Unsubscribe, then Drain, then Close, and logs exactly the failures. Without a subscription both steps are logged as failed. |
| SubtractorSpec.StartAlwaysCleansUp | services/subtractor/app/v1/app.go:45-58 | Start runs the full teardown after startup on every path. It returns the startup error if there is one, else the context's error. |
| Subtractor.CopyHeaders | services/subtractor/app/v1/publish.go:52-55 | A new map holding each request header key with its first value. |
| Subtractor.App.constructor | services/subtractor/app/v1/app.go:18-42 | The app holds the configuration and a new, unconnected client built from the NATS settings. |
| Subtractor.New | services/subtractor/app/v1/app.go:18-42 | Always returns a nil error and a new app whose client is not connected. |
| Subtractor.App.Stop | services/subtractor/app/v1/app.go:61-63 | Cancels the app's context. |
| Subtractor.App.PublishData | services/subtractor/app/v1/publish.go:27-49 | Updates the caller's map and makes exactly the calls of the publishData specification. |
| Subtractor.App.PublishError | services/subtractor/app/v1/publish.go:10-25 | Makes exactly the calls of the publishError specification and leaves the map unchanged. |
| Subtractor.App.SubHandlerReturn | services/subtractor/app/v1/publish.go:51-67 | Makes exactly the calls of the reply-and-report specification. |
| Subtractor.App.SetupNats | services/subtractor/app/v1/setup-nats.go:9-28 | Makes the startup chain's calls, returns its error, and sets the subscription and the labels as the chain says. A failed dial leaves no connection; a successful one leaves the stored connection to App.Nats.URL, made with valid dial options and reporting the dialled state and header support. |
| Subtractor.App.NatsSubscribe | services/subtractor/app/v1/setup-nats.go:30-45 | Sets the labels from Logger.Source and App.Env and records that assignment before any subscribe call. Then it subscribes only for a non-empty queue, assigning the subscription even when the subscribe fails. |
| Subtractor.App.NatsSubscribeTo | services/subtractor/app/v1/setup-nats.go:47-61 | Subscribes the handler wrapped by `UseMiddleware(handler, Log)`. A failure is logged and returns a nil subscription. |
| Subtractor.App.Cleanup | services/subtractor/app/v1/app.go:65-90 | Makes the teardown's calls and leaves the client disconnected. |
| Subtractor.App.Start | services/subtractor/app/v1/app.go:45-58 | Makes startup's calls and then the teardown's, and returns the error the Start specification gives. Afterwards the subscription and the labels are as startup left them, the client is disconnected and the cancellation flag is unchanged. |
| Logger.LowerChar | pkg/logger/logger.go:116 | Upper-case ASCII letters become lower case, the dotted capital I becomes 'i' and the Kelvin sign 'k', as Go's `unicode.ToLower` does; every other character is kept. The result never changes again. |
| Logger.ToLower | pkg/logger/logger.go:116 | Same length, lower-cased character by character. |
| Logger.LevelFromString | pkg/logger/logger.go:115-132 | The result is the level whose name the lower-cased string is, or Info when the lower-cased string names no level. |
| Logger.DottedCapitalISelectsPanic | pkg/logger/logger.go:115-132 | "PAN\u0130C" selects Panic and "\u0130NFO" selects Info, as in Go. |
| Logger.ToLowerIdempotent | pkg/logger/logger.go:116 | Lower-casing twice equals lower-casing once. |
| Logger.LevelNamesExact | pkg/logger/logger.go:117-125 | The table holds exactly the seven names trace..panic, each with its level. |
| Logger.NameRoundTrip | pkg/logger/logger.go:115-132 | Each level's name, in any mix of cases, maps to that level. |
| Logger.CaseInsensitive | pkg/logger/logger.go:116 | A string and its lower-case form select the same level. |
| Logger.LevelFromStringExact | pkg/logger/logger.go:115-132 | A level other than Info is chosen iff the string, lower-cased as Go does for the letters of level names, spells its name. Info is chosen iff the string spells "info" or is not a level name. |
| Logger.Logger.constructor | pkg/logger/logger.go:19-25 | A logger with the given section and action and an empty meta map. |
| Logger.Logger.AddMeta | pkg/logger/logger.go:28-30 | Sets or overwrites exactly the one key; the other keys keep their values. |
| Logger.Logger.Zerolog | pkg/logger/logger.go:33-40 | Keeps the event's fields and appends section and action. It adds meta iff meta is non-empty. |
| Cli.Registry.constructor | pkg/cli/cli.go:10 | No root command before `Init`. |
| Cli.Registry.Init | pkg/cli/cli.go:17-23 | The root becomes a new command with Use = appID and Short = Long = description. Earlier commands are discarded. |
| Cli.Registry.AddCommand | pkg/cli/cli.go:26-41 | Before `Init` it returns ErrNotInitialized and registers nothing. Afterwards it appends one child (Use = command, Short = Long = description, running the handler) and returns nil. |
| Ref.To | pkg/ref/ref.go:5-51 | Returns a new pointer whose target equals the argument. |
| Ref.Strings | pkg/ref/ref.go:53-59 | A new slice of the same length, the empty case included, whose i-th pointer is the address of `ss[i]`. |
| Ref.WriteThrough | pkg/ref/ref.go:56 | A write through the i-th result pointer changes `ss[i]` and no other element. Every pointer then reads the element it aliases. |

## Left out

- Transport behaviour of the nats.go library is not modelled: dialling, reconnection, buffering, and what `Subscribe`, `QueueSubscribe`, `SubscribeSync`, `QueueSubscribeSync`, `Unsubscribe`, `Publish`, `PublishMsg`, `RequestMsg`, `Flush` and `ReadMsg` do. These are one-line delegations. Their outcomes are parameters, or the call is recorded in the trace.
- `GetConn` only returns the connection field, so it has no contract worth stating.
- `DisconnectErrHandler` and `ReconnectHandler` are empty stubs. They appear only as dial options.
- Sleeping is recorded as a list of delays in seconds. No time passes.
- Nats.Client.RequestMsgWithRetries: the timeout is carried but has no effect, because it only matters to the library's request.
- The zerolog sink is not modelled: `Info`, `Debug`, `DebugWithExtra`, `Error`, `ErrorWithExtra`, `Warn`, `Fatal` and the process exit of `Fatal`. In the subtractor, only the error-level entries are recorded, as `LogError` calls.
- `logger.Init` is not modelled: its console-writer selection and the global level setting are I/O on the zerolog library. Its level mapping is `Logger.LevelFromString`.
- Logger.LowerChar, Logger.ToLower: non-ASCII letters other than the dotted capital I and the Kelvin sign are kept as they are, whereas Go's `strings.ToLower` lower-cases them too. Go turns each of them into a non-ASCII character, and every level name is plain ASCII, so the level chosen is the same.
- Logger.Logger: meta values are text, integers or booleans, not arbitrary `interface{}` values.
- `cli.Run`, `AssignStringFlag` and the execution of a command's handler are cobra's behaviour. A handler is only named.
- The subtractor's `subtractHandler` and `processSubtractEvent` are not modelled. They use JSON decoding and float64 arithmetic, and the model starts at their call of `subHandlerReturn`. The response payload is opaque, and the JSON encoder is a parameter.
- The adder service, the config parser, the decoder and the `main` programs are not part of this model. They wrap viper, mapstructure and validator, or run goroutines and signal handling.
- Subtractor.App.Start: the blocking wait on the context is not modelled. The error the context reports once done is a parameter, and `Stop` only records the cancellation; the concurrency between the two is not modelled.
- Header lookup (`HeaderGet`): a header key whose value list is empty reads as "". This is a choice of the model: what `nats.Header.Get` returns then belongs to the nats.go library, whose version is not part of this model.
