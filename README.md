# golog, modelled in Dafny

golog is a thin structured-logging layer over zap. A `Logger` fans records out to
one or more *providers* (stdout, an `io.Writer`, Google Cloud Logging, a rotating
file), each of which builds a zap core in `newCore` and may release a resource in
`close`. This project models golog's own logic around that plumbing:

- **Construction** (`Golog`): functional options applied in order to a
  configuration (`Config.Apply`, `Configure`); `NewLogger` rejecting an empty
  provider list, initialising every provider in registration order, recording it
  among the closers, and at the first failure closing *every* configured provider
  (the ones never initialised included) before returning the wrapped error.
- **Shutdown** (`Golog`): `closeProviders` calling `close()` on every provider in
  order and keeping the first error; `Logger.Close` running Sync first, whose error
  wins over a close error.
- **Provider state** (`Providers`): a `Provider` class whose `handle` field stands
  for the stored Cloud Logging client or lumberjack logger, absent until a
  successful `newCore` stores it, and whose `closeCalls` and `releases` counters
  make the number of `close()` calls and of actual releases observable.
- **Pure tables** (`Levels`, `Encoders`, `Fields`): `toZapLevel`, `levelToSeverity`,
  the threshold test `Enabled`, `buildEncoder` with its JSON fallback, the Field
  constructors and the type switch of `toZapFields`.
- **The Cloud Logging core** (`GcpCore`): `gcpZapCore.With` cloning and merging its
  field map, and `Write` building the payload map (core fields, call fields
  overriding them, then `message`, then the three `source_*` keys).
- **Context enrichment** (`Context`): the five `With*` helpers over a context
  modelled as a chain of `WithValue` bindings, and `FieldsFromContext`.

Go errors are values of `Errors.Error`: a plain message, or a message wrapped by
`fmt.Errorf("...: %w", err)`. What the unmodelled collaborators answer (whether
`logging.NewClient` or `Client.Close` fails, whether lumberjack's `Close` fails,
whether a caller-built provider's `newCore`/`close` fail and with which error) is
fixed per provider by an `External` value given when the option is built; the
core a caller-built provider returns is taken to be one at the level it is given
(see "## Left out"). zap's Sync result is a parameter of `Logger.Close`.

Files: `wrappers.dfy` (Option), `errors.dfy`, `levels.dfy`, `encoders.dfy`,
`fields.dfy`, `gcp_core.dfy`, `providers.dfy`, `golog.dfy`, `context.dfy`.

## Model

| member | source | states |
|---|---|---|
| Levels.ToZapLevel | main.go:387-403 | Debug, Info, Warn and Error map to zap's Debug..Error (one below in zap's numbering), Fatal to zap's Fatal, and any unnamed level to zap's Info |
| Levels.ToZapLevelRange | main.go:387-403 | the mapping is total and never yields zap's DPanic or Panic |
| Levels.ToZapLevelOrder | main.go:387-401 | on the five named levels the mapping preserves and reflects both order and equality |
| Levels.Enabled | main.go:435 | a core accepts a level iff it is at least the core's threshold (reference definition) |
| Levels.ThresholdFilter | main.go:435 | a core built at golog level t accepts golog level l iff l >= t for named levels; an unnamed level on either side behaves as Info |
| Levels.EnabledUpwardClosed | main.go:435 | a core that accepts a level accepts every higher level |
| Levels.LevelToSeverity | main.go:489-508 | the result is Default iff the level is outside zap's seven levels; Notice is never produced |
| Levels.LevelToSeverityMonotone | main.go:489-508 | on zap's seven levels the severity code strictly increases with the level |
| Levels.SeverityOfNamedLevels | main.go:489-508 | through toZapLevel, Debug→Debug, Info→Info, Warn→Warning, Error→Error, Fatal→Emergency |
| Encoders.BuildEncoder | main.go:409-423 | no error iff the name is "json" or "console"; a console encoder iff the name is "console", else JSON; any error is a plain error whose message starts with "unsupported encoder type" |
| Errors.WrappedMessageEndsWithCause | main.go:289 | wrapping with %w keeps the cause: the message of an error wrapping `target` ends with `target`'s message |
| Fields.String | main.go:352 | a field with the given key holding the string |
| Fields.Int | main.go:353 | a field with the given key holding the integer |
| Fields.Float64 | main.go:354 | a field with the given key holding the float's bit pattern |
| Fields.Err | main.go:355 | a field keyed "error" holding the error, or a nil value for a nil error |
| Fields.Duration | main.go:356-358 | a field with the given key holding the duration in nanoseconds |
| Fields.Any | main.go:359 | a field with the given key holding the value unchanged |
| Fields.ToZapField | main.go:364-378 | one case of the type switch: the value is carried unchanged, the key is kept except that an error is always keyed "error", and only a nil or unrecognised value falls through to zap.Any |
| Fields.ToZapFields | main.go:362-380 | the output has the input's length, and each position is the conversion of the field at that position (same value; key "error" for errors, the field's key otherwise) |
| Fields.ConstructorsDispatch | main.go:352-359 | each Field constructor lands in its own case of the switch; Err of a nil error becomes zap.Any keyed "error"; Any of an error is still keyed "error" |
| GcpCore.EncodeFields | main.go:443-449 | the map a MapObjectEncoder holds after AddTo of each field in turn, a later key overwriting an earlier one (reference definition) |
| GcpCore.Payload | main.go:460-477 | the payload Write builds: core fields, then call fields over them, then message, then the source keys when caller information is defined (reference definition) |
| GcpCore.EncodeFieldsLastWins | main.go:465-471 | after adding fields to a map encoder, a key holds the value of the last field with that key |
| GcpCore.EncodeFieldsKeys | main.go:465-471 | a key is in the encoded map iff some field has it |
| GcpCore.EncodeFieldsAppend | main.go:443-449 | encoding a concatenation equals merging the two encodings, the second winning |
| GcpCore.CopyInto | main.go:439-441 | copying src into dst key by key, in any order, yields dst merged with src, src winning |
| GcpCore.EncodeAll | main.go:443-446 | the encoder loop computes the encoded map of the field list |
| GcpCore.PayloadContents | main.go:460-477 | "message" holds the entry's message; with caller info the three source keys hold file, line and function; every other key is present iff the core's or the call's fields have it, the call's value winning |
| GcpCore.WithThenWrite | main.go:437-477 | writing through a clone made by With equals writing through the original with the bound fields placed before the call's fields |
| GcpCore.CloudCore.Enabled | main.go:435 | the cloud core accepts a level iff it is at least its own threshold |
| GcpCore.CloudCore.With | main.go:437-451 | the clone is a fresh core with the same log and level, whose map is the original map merged with the encoded fields; the original is not modified |
| GcpCore.CloudCore.Write | main.go:460-485 | the logged entry carries the entry's time, the severity of its level and the payload built from the core's and the call's fields, message and caller |
| Providers.Provider.InitError | main.go:61-177 | a file provider fails iff a rotation parameter is negative, with the "non‑negative" message; stdout and writer fail iff the encoder name is unknown; a cloud provider fails iff client creation fails, with that error wrapped |
| Providers.Provider.CloseError | main.go:118-192 | close returns nil whenever nothing is held; a cloud provider wraps the client's close error; a file provider passes lumberjack's error through |
| Providers.Provider.Produced | main.go:61-177 | the core a successful newCore returns at a level: stdout or writer sink with the named encoder, a JSON rotating file, a cloud core on the configured log, or the caller's core (reference definition) |
| Providers.Provider.NewCore | main.go:61-177 | returns a core iff InitError is nil, that core being the one Produced describes at the requested level, whose threshold is that level; only a successful cloud or file provider stores its handle; nothing is closed |
| Providers.Provider.Close | main.go:118-192 | returns CloseError of the state before the call; counts the call; releases exactly when something is held; the handle stays stored |
| Golog.ProviderOptions | main.go:270-277 | the options that register a provider, in the order given (reference definition) |
| Golog.ConfiguredLevel | main.go:270-277 | the level the options leave in the configuration, starting from Info (reference definition) |
| Golog.ProviderOptionsFromList | main.go:272-277 | every registered provider comes from an option of the list, and there are no more providers than options |
| Golog.RegisteringIndices | main.go:274-276 | the positions of the registering options: one per registered provider, strictly increasing, each holding that provider's option, and covering every option that is not a WithLevel, so providers are registered in the order of their options |
| Golog.ProviderOptionsWithoutLevels | main.go:208-249 | without WithLevel options every option registers exactly one provider, in order |
| Golog.NoProvidersIffOnlyLevels | main.go:279-281 | the provider list is empty iff every option is a WithLevel |
| Golog.LastWithLevelWins | main.go:252-256 | the configured level is that of the last WithLevel option |
| Golog.DefaultLevelIsInfo | main.go:270-273 | without a WithLevel option the level is Info |
| Golog.FirstInitFailure | main.go:284-290 | the index of the first provider whose newCore fails: all before it succeed, and it fails unless it is the list's length |
| Golog.FirstError | main.go:515-520 | closeProviders' accumulator: the first error met, wrapped, later ones dropped (reference definition) |
| Golog.FirstErrorSnoc | main.go:515-519 | one more close outcome changes the accumulated error only while none has been met |
| Golog.FirstErrorIsEarliest | main.go:514-522 | closeProviders' result is nil iff every close succeeded, and otherwise wraps the error of the earliest failing close |
| Golog.Config.Apply | main.go:207-256 | WithLevel sets the level only; every other option appends one provider registered from its arguments (a new, untouched provider for the built-in options) and leaves the level alone |
| Golog.Configure | main.go:270-277 | the configuration holds the configured level and, position by position, one provider per registering option, in order |
| Golog.CloseProviders | main.go:514-522 | returns the first close error, wrapped, or nil; every provider in the list is closed once per occurrence, even after a failure; releases happen exactly where something was held; handles are untouched |
| Golog.Logger.Close | main.go:302-312 | a Sync error, wrapped, wins over a close error; the providers are closed either way, once per occurrence |
| Golog.Logger.CloseOnce | main.go:302-312 | the corrected Close: the first call behaves as Close and sets a released flag; every later call returns nil and closes nothing; no handle changes either way |
| Golog.InitUntilFailure | main.go:284-294 | newCore runs on the providers in order and stops at the first failure, at FirstInitFailure; every provider before it is a closer, in order, and has core j as Produced describes at the given level (a cloud core fresh and with no bound fields); nothing is closed, and only those providers may come to store a handle |
| Golog.InitProviders | main.go:283-294 | with no failure every provider is initialised, in order, and becomes a closer, core j being the core provider j produces at the given level (a cloud core fresh and with an empty field map); at the first failure every configured provider is closed once per occurrence, the error is wrapped with "failed to initialise provider", and only the providers before the failure store a handle |
| Golog.NewLogger | main.go:269-299 | no providers: no logger and "no providers specified"; first init failure at i: no logger, the wrapped error of provider i, every provider closed; otherwise a logger whose closers are the providers in registration order and whose core j is provider j's core built at toZapLevel of the configured level (its threshold; a cloud core fresh and with no bound fields), nothing closed |
| Golog.CloseTwiceAsWritten | main_test.go:192-214 | with one counting provider, two Close calls both return nil and close() runs twice |
| Golog.CloseTwiceCorrected | main_test.go:192-214 | the same scenario against CloseOnce runs close() exactly once |
| Golog.PartialInitFailure | main.go:284-290 | file, then a cloud provider whose client cannot be created, then a caller's provider: no logger, the client error wrapped twice, and the never-initialised caller's provider closed and released once |
| Context.WithID | context.go:19-56 | an empty id leaves the context as it was; any other id is what the typed key now looks up, and every other key's lookup is unchanged |
| Context.WithCorrelationID | context.go:19-24 | as WithID, for correlation_id |
| Context.WithRequestID | context.go:27-32 | as WithID, for request_id |
| Context.WithUserID | context.go:35-40 | as WithID, for user_id |
| Context.WithTraceID | context.go:43-48 | as WithID, for trace_id |
| Context.WithSpanID | context.go:51-56 | as WithID, for span_id |
| Context.FieldsFromContext | context.go:61-83 | nil for a nil context, else the five conditional appends in key order (reference definition) |
| Context.CollectLength | context.go:66-82 | the conditional appends yield at most one field per key read |
| Context.CollectSound | context.go:66-82 | every field appended is a String field, under a key that was read, holding that key's non-empty string |
| Context.CollectComplete | context.go:66-82 | every key read that holds a non-empty string gets its field |
| Context.CollectOrdered | context.go:66-82 | the fields come in the order their keys are read |
| Context.FieldsFromContextIsCollect | context.go:66-82 | FieldsFromContext reads exactly the five known keys, in order |
| Context.FieldsFromNilContext | context.go:62-64 | a nil context yields no fields |
| Context.FieldsFromContextOrdered | context.go:66-82 | at most five fields, in the order correlation_id, request_id, user_id, trace_id, span_id, so with pairwise distinct keys |
| Context.FieldsFromContextSoundComplete | context.go:67-81 | each field is keyed by a known key and holds that key's non-empty string; a known key's field is present iff it holds a non-empty string (absent keys, "" and non-string values are skipped) |
| Context.WithIDThenFields | context.go:17-82 | round trip: a non-empty id bound under any known key comes back as that key's field |
| Context.WithThenFields | context.go:17-82 | round trip for each of the five With* helpers |
| Context.UntypedKeyIgnored | context.go:67-81 | a value bound under a plain string key with a known key's text does not change the fields |

## Left out

- zap internals: encoders' byte layout, `NewTee` fan-out, caller capture, `zap.New`, `Check` (main.go:453-458) and duration rendering; an encoder is only the tag JSON or Console and a core only names its encoder, sink and level.
- The emit methods `Debug`, `Info`, `Warn`, `Error` (main.go:318-336) and `Logger.Sync` (main.go:315): they only forward to zap.
- `Fatal` (main.go:338-340): it exits the process.
- lumberjack rotation and file I/O (main.go:165-171), GCP client creation, `Log`, `Flush` and `Close` (main.go:105, main.go:121, main.go:479-487), writes to `os.Stdout`: their outcomes are the fixed `External` answers of each provider, and a client's log name is kept as a string.
- Providers.Provider.NewCore: a caller-built provider's newCore is foreign code that main.go:285 only hands `toZapLevel(cfg.level)`; the model assumes it returns a core at exactly that level (`CustomCore(level)`), as the providers of main_test.go:31-35 and main_test.go:46-52 do. That assumption is what gives `NewLogger`'s `l.cores[j].Level() == l.level` for `WithProvider` entries.
- Golog.LoggerOption: a raw `LoggerOption` is any `func(*loggerConfig)` (main.go:198); the model has only the raw option that appends one caller-built provider (`WithProvider`). A raw closure that appends several providers, reorders them, or sets `cfg.closers` or `cfg.level` directly is not represented.
- Concurrency: the model is sequential.
- Fields.Float64: a float64 is kept as its 64-bit pattern; no floating-point arithmetic is modelled.
- Fields.Any: zap.Any's reflective encoding is not modelled; an unrecognised value is kept as opaque text.
- GcpCore.Encode: zap.Error's extra "errorVerbose" key and the map encoder's rendering of non-string values are not modelled; an error field leaves its message text.
- Encoders.Quote: Go's %q escaping of special characters is not modelled; the name is only put in quotes.
- Context.WithID: a nil parent context, on which Go's `context.WithValue` panics, is not represented.
- The sugared methods (`Debugf`, `Infow`, ...) and `ignoreSyncError` used by main_test.go:283-292 and main_test.go:513 are not defined in main.go, so there is nothing to model.
- The Go `int` of `Int` fields and of the file provider's rotation parameters: `Int` carries an `int64` (Go's `int` on 64-bit targets); rotation parameters are unbounded integers, which only matters for their sign test.

## Findings

| source | as written | input that shows it | evidently intended | confidence | as-written member | corrected member |
|---|---|---|---|---|---|---|
| main.go:302-312 | `Logger.Close` has no released flag, so every call runs `closeProviders` again | one caller-built counting provider, then `Close()` twice: close() runs twice, where main_test.go:192-214 expects exactly once | Close is idempotent: after the first call, later calls close nothing and return nil | not executed | Golog.CloseTwiceAsWritten | Golog.CloseTwiceCorrected |
