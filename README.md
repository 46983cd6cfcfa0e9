# go-plugin-log-example, modelled in Dafny

The repository is a host program (`stresshouse`) that starts a key/value plugin as a child process
through HashiCorp's go-plugin. It talks to the plugin over gRPC and lets the plugin log back into the
host. The host brokers a second gRPC connection for this: the `LogHelper` service. This project
models the log-bridging machinery and the session set-up around it:

- **Normalizer**, `LogRouting`, `LogWriters`, `Injector`, `Wrapper`: the log-line normaliser, in
  `renderLogLineToString` of `LogInjector` and `LoggerWrapper`. Also how `Log` routes a normalised
  line to the zerolog sink, the translation of zerolog levels into hclog levels, and the two writers
  `StringWriter` and `StderrToLogWriter`.
- **GrpcClient**: the host's `GRPCClient`. Its one-shot `Init` is a state machine on
  `isInitialized`. A ghost record of the log servers started and of the `Init` RPCs issued goes with it.
- **GrpcServer**: the plugin's `GRPCServer`. Its `Init` stores the broker id, dials the host's log
  server, and initialises the implementation.
- **GrpcLogger**: the `LogHelper` adapters. Levels pass through an `int32` on the wire.
- **PluginKV**: the plugin's `KV`, with the file system as a map from file names to contents.
- **HostMain**: the host's command-line dispatch and its exit code.

Strings are sequences of characters, one character per byte. `strings.TrimSpace` uses ASCII white
space, and `strings.ToLower`/`ToUpper` use ASCII case (module `Text`). Go's fixed-width integers,
its errors and its run-time panics are in module `GoTypes`. Everything outside the modelled code is
an input to the model. That covers the gRPC calls, the broker's `Dial`, the plugin implementation
behind `GRPCServer`, the transport errors of the log helper, file-system write failures and the
plugin start-up in `run`. Each is an oracle: a function from the request to the reply, or the reply
itself.

Some behaviour of the code that is easy to overlook, and that the model keeps:

- The normaliser's `plugin:` check runs on every turn of the loop. That includes the last turn,
  where no level token was stripped (log_injector.go:147-157).
- `GRPCClient` has no separate "log server started" flag. A failed `Init` RPC leaves
  `isInitialized` false, so the next `Init` allocates a new broker id and starts another log server
  (`GrpcClient.RetryUsesNewId`).
- `GRPCServer.Init` has no guard against a second call. Every call stores the id, dials again and
  calls the implementation again.
- On the command line, a missing argument is an index out of range. It panics, and the Go runtime
  exits with status 2 rather than 1.

## Model

| member | source | states |
|---|---|---|
| `Normalizer.StripLevel` | log_injector.go:140-145 | One level step drops everything through the first occurrence of the token plus one more character, then trims. When nothing is found, the line is unchanged. A stripped line is at least `len(token)+1` shorter. |
| `Normalizer.DropPluginTag` | log_injector.go:147-153 | A leading `plugin:` in any letter case is dropped and the rest trimmed. Any other line is left alone. |
| `Normalizer.Normalize` | log_injector.go:132-160 | The loop as evidently intended: strip, then drop the tag, while a prefix was stripped. It stops on a line shorter than the token. Decreasing length proves termination, and the result is never longer than the input. |
| `Normalizer.RenderLogLineToString` | log_injector.go:132-160 | The imperative loop that rewrites `logStr` step by step returns exactly `Normalize(rendered, levelStr)`. |
| `Normalizer.AsWrittenAgreesWhenNoPanic` | log_injector.go:132-160 | Wherever the loop as written returns without panicking, it returns the same line as the corrected loop. |
| `Normalizer.NormalizeIsSlice` | log_injector.go:132-160 | The normalised line is always a contiguous piece of the rendered line. |
| `Normalizer.CleanLineUnchanged` | log_injector.go:135-157 | A line with no level token and no leading `plugin:` tag comes back unchanged. |
| `Normalizer.CleanLineUnchangedAsWritten` | log_injector.go:135-157 | As written, the same holds for such lines of at least 7 characters. |
| `Normalizer.StripLevelOnPrefix` | log_injector.go:140-145 | On `{timestamp} [LEVEL] plugin: rest`, the level step leaves `plugin: rest`. The only demand on the timestamp is that the bracketed token is the token's first occurrence. |
| `Normalizer.DropPluginTagOnTagged` | log_injector.go:147-153 | On `plugin: rest`, the tag step leaves `rest`. |
| `Normalizer.StripsOnePrefix` | log_injector.go:132-158 | One `{timestamp} [LEVEL] plugin: ` prefix is removed, and normalisation continues on the rest. |
| `Normalizer.DoubledPrefixStripped` | log_injector.go:107-120 | The doubled prefix produced by relaying through two formatting layers is removed completely. This holds for any clean message, and for any timestamp in which the bracketed token is the token's first occurrence. It covers the single space hclog writes after the five-letter brackets (TRACE, DEBUG, ERROR). The bracket of a four-letter level (INFO, WARN) is followed by two spaces, which this lemma does not cover; `Normalize` trims them all the same. |
| `Normalizer.ExampleTimestampBracketed` | log_injector.go:109-120 | In the example line, the DEBUG token first occurs inside the brackets. |
| `Normalizer.TraceTimestampBracketed` | log_injector.go:130-145 | In the example timestamp, the TRACE token also first occurs inside the brackets, although the timestamp contains a `T`. So the prefix lemmas apply to Trace lines too. |
| `Normalizer.DocumentedExample` | log_injector.go:109-120 | The doubled DEBUG line in the source's own comment normalises to `plugin address: network=unix address=...`. |
| `Normalizer.NormalizeAsWritten` | logger_wrapper.go:143-169 | The loop exactly as written, in both copies: each out-of-range slice is a panic with its bounds. |
| `Normalizer.TokenAtEndPanics` | log_injector.go:142-143 | As written, a level token that ends the line passes the `pos+1 < len` check and the slice after it panics. |
| `Normalizer.TokenAtEndKept` | log_injector.go:142-143 | The corrected loop keeps such a line as it is. |
| `Normalizer.ShortLinePanics` | log_injector.go:148-150 | As written, a line without a level token that is at least as long as the token but shorter than 7 characters panics at `logStr[:7]`. A line shorter than the token is returned before that point. |
| `Normalizer.ShortMessagePanics` | logger_wrapper.go:153-161 | As written, a message shorter than 7 characters after `{timestamp} [LEVEL] ` panics in the same turn, once its prefix is stripped. |
| `Normalizer.ShortMessageKept` | log_injector.go:140-153 | The corrected loop returns such a message, when it is shorter than the token. |
| `Normalizer.TaggedShortMessagePanics` | log_injector.go:132-158 | As written, a message after `{timestamp} [LEVEL] plugin: ` that is shorter than 7 characters, no shorter than the token and free of it panics at `logStr[:7]` on the second turn. |
| `Normalizer.TaggedShortMessageKept` | log_injector.go:132-158 | The corrected loop returns such a message. |
| `Normalizer.ShortMessageExample` | log_injector.go:132-158 | The line `2023-11-15T10:54:22.783+0800 [DEBUG] plugin: hello` panics as written, slicing 7 bytes out of `hello`. When corrected, it normalises to `hello`. |
| `Text.IndexSpec` | log_injector.go:140 | `strings.Index` gives the first occurrence of the token, and -1 exactly when there is none. |
| `Text.TrimSpaceSpec` | log_injector.go:143 | `strings.TrimSpace` keeps the piece between leading and trailing white space: what it drops is white space, and what it keeps neither starts nor ends with white space. |
| `LogRouting.EffectiveLevel` | log_injector.go:44-47 | NoLevel is replaced by the default level. Every other level is kept. |
| `LogRouting.SinkSeverity` | log_injector.go:55-73 | NoLevel goes out at Info. The five named levels go out at the zerolog severity with the same name. Off and unknown levels go out at nothing. |
| `LogRouting.LogEvents` | log_injector.go:49-73 | `Log` writes at most one event, carrying the normalised line. It writes none exactly when the line is the sentinel or the level has no case in the switch. |
| `LogRouting.NamedLevelRouted` | logger_wrapper.go:46-64 | A named level sends every line except the sentinel as exactly one event, at the same-named severity. |
| `LogRouting.NoLevelUsesDefault` | logger_wrapper.go:35-38 | A line without a level is routed as the default level would be. |
| `LogRouting.LogHCLevelFromZerologLevel` | log_injector.go:200-226 | Every zerolog level maps to a named hclog level. Panic, Fatal, Disabled and Error map to Error. NoLevel, Trace and unknown levels map to Trace. The ordered levels keep their names. |
| `LogRouting.SeverityRoundTrip` | log_injector.go:200-226 | A named hclog level sent to its sink severity and translated back is the same level. |
| `LogRouting.TranslationMonotonic` | log_injector.go:200-226 | The translation keeps the order of importance. |
| `LogRouting.EventSink.Msg` | log_injector.go:57-72 | Writing to the sink appends one event. |
| `Injector.LogInjector.Log` | log_injector.go:43-74 | The sink grows by exactly `LogEvents` of the level, with the line normalised using the token of the level as logged. Wherever the loop as written does not panic, that is the event the program writes. |
| `Injector.LogInjector.RenderLogLineToString` | log_injector.go:106-161 | Returns the normalised rendered line, using the upper-cased name of the level. Wherever the loop as written does not panic, that is what it returns. |
| `Injector.LogInjector.LevelToken` | log_injector.go:130 | The token of a named level is its hclog name in upper case. |
| `Injector.LogInjector.Trace` | log_injector.go:76-78 | Exactly `Log` at Trace. |
| `Injector.LogInjector.Debug` | log_injector.go:80-82 | Exactly `Log` at Debug. |
| `Injector.LogInjector.Info` | log_injector.go:84-86 | Exactly `Log` at Info. |
| `Injector.LogInjector.Warn` | log_injector.go:88-90 | Exactly `Log` at Warn. |
| `Injector.LogInjector.Error` | log_injector.go:92-94 | Exactly `Log` at Error. |
| `Injector.LogInjector.Named` | log_injector.go:96-104 | A new logger sharing the embedded logger, the sink and the options. The name is ignored. |
| `Wrapper.LoggerWrapper.Log` | logger_wrapper.go:34-65 | As `Injector.LogInjector.Log`. |
| `Wrapper.LoggerWrapper.RenderLogLineToString` | logger_wrapper.go:117-172 | As `Injector.LogInjector.RenderLogLineToString`. |
| `Wrapper.LoggerWrapper.LevelToken` | logger_wrapper.go:141 | As `Injector.LogInjector.LevelToken`. |
| `Wrapper.LoggerWrapper.Trace` | logger_wrapper.go:67-69 | Exactly `Log` at Trace. |
| `Wrapper.LoggerWrapper.Debug` | logger_wrapper.go:71-73 | Exactly `Log` at Debug. |
| `Wrapper.LoggerWrapper.Info` | logger_wrapper.go:75-77 | Exactly `Log` at Info. |
| `Wrapper.LoggerWrapper.Warn` | logger_wrapper.go:79-81 | Exactly `Log` at Warn. |
| `Wrapper.LoggerWrapper.Error` | logger_wrapper.go:83-85 | Exactly `Log` at Error. |
| `Wrapper.LoggerWrapper.Named` | logger_wrapper.go:107-115 | A new wrapper sharing the embedded logger, the sink and the options. The name is ignored. |
| `LogWriters.StringWriter.Write` | logger_wrapper.go:91-93 | Appends the bytes and records them as a piece. Returns their length and nil. |
| `LogWriters.StringWriter.WriteString` | log_injector.go:171-173 | Appends the string and records it as a piece. Returns its length and nil. |
| `LogWriters.StringWriter.WriteByte` | log_injector.go:175-177 | Appends one byte and returns nil. |
| `LogWriters.StringWriter.String` | log_injector.go:179-181 | The in-order concatenation of every piece written. |
| `LogWriters.ConcatAppend` | logger_wrapper.go:87-105 | Writing one batch of pieces after another gives the first batch's text followed by the second's. |
| `LogWriters.StderrToLogWriter.Write` | log_injector.go:193-198 | Appends one Debug event holding the trimmed text. Always returns `(len(p), nil)`. |
| `GoTypes.Int32Of` | shared/grpc_logger.go:22 | `int32(level)` keeps the value modulo 2^32. |
| `GoTypes.Int32RoundTrip` | shared/grpc_logger.go:22 | Converting to int32 and back is the identity exactly on the values int32 can hold. |
| `GoTypes.Int32Truncates` | shared/grpc_logger.go:22 | 2^31 arrives as -2^31, and -2^31-1 arrives as 2^31-1. |
| `GrpcLogger.HelperClientLog` | shared/grpc_logger.go:20-32 | The client sends `int32(level)` and the message unchanged. It returns the RPC's error, or nil. |
| `GrpcLogger.HelperServerLog` | shared/grpc_logger.go:40-47 | The server calls the implementation once with the widened level and the message. It returns a nil response with that error, or an empty response and nil. |
| `GrpcLogger.LevelDelivered` | shared/grpc_logger.go:20-47 | End to end, the host sees the plugin's message, and the plugin's level exactly when that level fits in int32. |
| `GrpcLogger.LevelTruncated` | shared/grpc_logger.go:22 | The level 2^31 reaches the host as -2^31. |
| `GrpcLogger.ErrorPassedThrough` | shared/grpc_logger.go:26-31 | When the transport returns the server's error, the plugin sees exactly the host implementation's error. |
| `GrpcClient.Successor` | shared/grpc_client.go:111 | The broker's next id is one past the last, wrapping at 2^32. |
| `GrpcClient.Broker.NextId` | shared/grpc_client.go:111 | Hands out the id after the last one and remembers it. |
| `GrpcClient.InitStep` | shared/grpc_client.go:49-74 | An initialized session is left alone and nil is returned. Otherwise the flag is set exactly when the RPC succeeds. |
| `GrpcClient.Fresh` | shared/grpc_client.go:30-38 | A new client is not initialized, and its session is well formed. |
| `GrpcClient.InitKeepsWellFormed` | shared/grpc_client.go:54-71 | `Init` keeps every session invariant. Calls alternate between a log server started on a new id and an `Init` RPC carrying that id. Only the last RPC may have succeeded. The flag is set exactly when it did. |
| `GrpcClient.RunInitsWellFormed` | shared/grpc_client.go:49-74 | The invariants hold after any series of `Init` calls, whatever the RPCs answer. |
| `GrpcClient.AtMostOneSuccess` | shared/grpc_client.go:54-71 | In a reachable session, at most one `Init` RPC has succeeded. |
| `GrpcClient.InitializedStays` | shared/grpc_client.go:54-56 | Once a session is initialized, any series of later `Init` calls changes nothing. |
| `GrpcClient.RetryUsesNewId` | shared/grpc_client.go:67-69 | After a failed RPC the flag stays down. The next call allocates a new id and starts another log server. |
| `GrpcClient.GRPCClient.constructor` | shared/grpc_client.go:30-38 | Not initialized, with no calls made. |
| `GrpcClient.GRPCClient.StartLogServer` | shared/grpc_client.go:99-115 | Allocates the next broker id, starts serving on it, and returns it. |
| `GrpcClient.GRPCClient.Init` | shared/grpc_client.go:49-74 | The new state and the result are exactly `InitStep` of the old state. |
| `GrpcClient.GRPCClient.Initialize` | shared/grpc_client.go:45-47 | Exactly `Init(0)`: the argument is unused. |
| `GrpcClient.GRPCClient.Ping` | shared/grpc_client.go:40-43 | Returns the RPC's error. |
| `GrpcClient.GRPCClient.SetLogger` | shared/grpc_client.go:76-78 | Always nil, and nothing changes. |
| `GrpcClient.GRPCClient.Put` | shared/grpc_client.go:80-86 | Sends the key and value and returns the RPC's error. |
| `GrpcClient.GRPCClient.Get` | shared/grpc_client.go:88-97 | On RPC failure, a nil value with the error. Otherwise the response's value and nil. |
| `GrpcServer.GRPCServer.constructor` | shared/grpc_server.go:16-23 | No broker id, connection or log client yet. |
| `GrpcServer.GRPCServer.ConnectToLoggerServer` | shared/grpc_server.go:59-69 | Only a successful dial replaces the connection and the log client, which wraps that connection. A failed dial returns its error. |
| `GrpcServer.GRPCServer.Init` | shared/grpc_server.go:29-48 | The broker id is stored before dialing and kept on failure. A failed dial gets the fixed error prefix, changes nothing else and calls nothing. Otherwise the implementation's `Init` gets the stored id. Only if that succeeds does `SetLogger` get the new log client. Full success is an empty response with nil. |
| `GrpcServer.GRPCServer.Ping` | shared/grpc_server.go:25-27 | An empty response with exactly the implementation's error. |
| `GrpcServer.GRPCServer.Put` | shared/grpc_server.go:50-52 | An empty response with exactly the implementation's error. |
| `GrpcServer.GRPCServer.Get` | shared/grpc_server.go:54-57 | The implementation's value together with its error. The value is kept even on error. |
| `PluginKV.WrapValue` | plugin-go-grpc/main.go:56 | The stored text is `value [` + v + `] in plugin-go-grpc`. |
| `PluginKV.UnwrapValue` | plugin-go-grpc/main.go:56 | Reads a value back out of stored text. |
| `PluginKV.UnwrapWrap` | plugin-go-grpc/main.go:56 | Every stored value can be read back exactly. |
| `PluginKV.WrapInjective` | plugin-go-grpc/main.go:56 | Different values are stored differently. |
| `PluginKV.FileName` | plugin-go-grpc/main.go:57 | A key is stored in `kv_` + key. |
| `PluginKV.FileNameInjective` | plugin-go-grpc/main.go:57 | Different keys use different files. |
| `PluginKV.StorePut` | plugin-go-grpc/main.go:56-57 | After `Put`, the key's file exists, and no file other than the key's is added. |
| `PluginKV.Lookup` | plugin-go-grpc/main.go:65 | `Get` finds contents exactly when the key's file exists. |
| `PluginKV.GetAfterPut` | plugin-go-grpc/main.go:56-65 | After `Put(k, v)`, `Get(k)` finds the wrapped value, from which `v` is recovered. |
| `PluginKV.PutLeavesOtherKeys` | plugin-go-grpc/main.go:57 | `Put` on one key leaves what every other key finds unchanged. |
| `PluginKV.FailedPutLeavesOtherKeys` | plugin-go-grpc/main.go:57 | A failed `Put` also leaves what every other key finds unchanged. |
| `PluginKV.WrittenPart` | plugin-go-grpc/main.go:57 | What a failed write after the open leaves in the file is a prefix of the data, as long as the count written. |
| `PluginKV.LogHelperClient.Log` | shared/grpc_logger.go:20-32 | Sends exactly the request `GrpcLogger.HelperClientLog` builds, and returns its error. |
| `PluginKV.FileSystem.WriteFile` | plugin-go-grpc/main.go:57 | Writes the file, or returns the error of a failure. A failure touches no other file. If opening fails, nothing changes. If it fails after the file was opened and truncated, the file holds the first bytes written. |
| `PluginKV.FileSystem.ReadFile` | plugin-go-grpc/main.go:65 | The contents, or no data with a "no such file" error. |
| `PluginKV.KV.constructor` | plugin-go-grpc/main.go:27-29 | No log helper yet. |
| `PluginKV.KV.Ping` | plugin-go-grpc/main.go:31-34 | Always nil. |
| `PluginKV.KV.Init` | plugin-go-grpc/main.go:36-40 | Always nil. The id is ignored. |
| `PluginKV.KV.SetLogger` | plugin-go-grpc/main.go:42-49 | Stores the helper and sends exactly one level-0 line through it. Returns nil whatever that send returns. |
| `PluginKV.KV.Put` | plugin-go-grpc/main.go:51-58 | Requires a log helper, and sends one level-0 line. Writes the wrapped value to `kv_`+key. On a write failure it returns the error, and no file but `kv_`+key changes: that file is as it was, or truncated and partly written. |
| `PluginKV.KV.Get` | plugin-go-grpc/main.go:60-66 | Requires a log helper, and sends one level-0 line. Returns the file's contents, or the not-found error. |
| `HostMain.Quote` | main.go:68 | `%q` puts the command between double quotes. |
| `HostMain.UnquoteQuote` | main.go:68 | The quoted command can be read back exactly. |
| `HostMain.Dispatch` | main.go:51-69 | The program name is dropped. `get` needs one more argument and `put` needs two; a missing argument panics with its index. Any other command gives the usage error quoting it. |
| `HostMain.UsageNamesCommand` | main.go:67-68 | The usage error starts with the fixed text, and the command can be read back from it. |
| `HostMain.Run` | main.go:20-72 | A start-up error is returned first. Otherwise `run` returns exactly what the dispatched command's `Get` or `Put` returned, the usage error, or the panic. |
| `HostMain.ExitCode` | main.go:79-84 | Exit 0 exactly when `run` returns nil, 1 exactly on an error, 2 exactly on a panic. |
| `HostMain.HostMain` | main.go:74-85 | The process exits with the status of what `run` did. |
| `HostMain.BadCommandLineFails` | main.go:51-84 | An unknown command or a missing argument never exits 0. |

## Left out

- hclog's rendering of a log call (log_injector.go:123-128, logger_wrapper.go:134-139) is not modelled. Each logging method takes the line hclog rendered.
- hclog's `Level.String()` is the class constant `levelName`. The logger's constructor requires it to agree with `Hclog.Name` on the five named levels. Its text for NoLevel, Off and unnamed values is left open.
- hclog's `DefaultLevel` is the class constant `defaultLevel`, left open.
- Injector.LogInjector.Log, Injector.LogInjector.RenderLogLineToString, Wrapper.LoggerWrapper.Log and Wrapper.LoggerWrapper.RenderLogLineToString use the corrected loop. Where the loop as written panics (## Findings), the model writes the event instead of panicking. Their second ensures states that they agree with the program wherever it does not panic.
- zerolog's and hclog's output formatting is not modelled. The zerolog sink is a ghost sequence of (severity, message) events.
- Logger construction is left out: `NewLogInjector`, `NewLoggerWrapper`, `NewStderrToLogWriter` and `configureLogger`. It consists of library calls and the `app` field added to each sink.
- Concurrency is left out. The mutex in `GRPCClient.Init` spans the whole check-start-call-commit sequence, so the calls are modelled one at a time. The `AcceptAndServe` goroutine is an entry in the ghost call record.
- The gRPC transport is left out: stubs, the broker's `Dial` and accept, and the process start-up and handshake in `run`. So are `interface.go`, `plugins_config.go` and the generated `kv_grpc.pb.go`. All of them are oracles or inputs.
- The zerolog messages written by `GRPCClient.Init`, by `GRPCLogHelperClient.Log` on failure, and by `run` after `get` are left out. So are the `fmt.Println`/`Fprintf` diagnostics. They do not affect any result.
- Real file I/O and file permissions are left out. The store is a map from file name to contents. Whether and how a write fails is an input: at the open, or after it with some number of bytes written.
- Unicode is left out. Strings are one character per byte. `TrimSpace` uses ASCII white space, `ToLower`/`ToUpper` use ASCII case, and `Quote` keeps characters at or above 0x80 as they are. Go escapes such bytes when they are not valid UTF-8 or not printable.
- PluginKV.KV.Put: the nil-helper case is a precondition (`logClient != null`). In Go it is a nil-interface panic.
- PluginKV.KV.Get: the same precondition, for the same reason.

## Findings

| source | as written | input that shows it | evidently intended | confidence | as-written member | corrected member |
|---|---|---|---|---|---|---|
| log_injector.go:148-150 (and logger_wrapper.go:159-161) | `prefix := logStr[:7]` is taken before the `len(logStr) >= 7` check meant to guard it | the rendered line `2023-11-15T10:54:22.783+0800 [DEBUG] plugin: hello`: the first turn leaves `hello`, and the second slices 7 bytes out of its 5 | check the length before slicing; the line normalises to `hello` | not executed | `Normalizer.TaggedShortMessagePanics` | `Normalizer.TaggedShortMessageKept` |
| log_injector.go:142-143 (and logger_wrapper.go:153-154) | `pos+1 < len(logStr)` lets through a token that ends the line, and `logStr[pos+len(levelStr)+1:]` then starts past the end | any line ending in its level token, e.g. `x DEBUG` with token `DEBUG` | require `pos+len(levelStr)+1 <= len(logStr)`; the line is kept as it is | not executed | `Normalizer.TokenAtEndPanics` | `Normalizer.TokenAtEndKept` |
