# cloudlog configuration layer, modelled in Dafny

This project models `cloudlog`, a thin configuration façade over the zap
logging engine for Google Cloud. The modelled behaviour is:

- **Severity mapping.** Level text is parsed into one of seven ordered
  levels. A level is printed in the Cloud Logging `LogSeverity` vocabulary.
- **Config builders.** Two fixed engine configurations, one for the cloud
  and one for local use.
- **Option resolution.** A functional-options resolver turns a list of
  overrides into an error-reporting flag, a service name and a level text.
- **Logger facade.**
  - Two constructors assemble a base handle and an error-path handle.
  - The cloud constructor adds a `serviceContext` block to its records.
  - When requested, it also adds the Error Reporting `@type` tag.
  - Fifteen emission methods route each call to one of the two handles.
    They flush after the templated and keyed variants.

Files, one module each:

| file | module | models |
|---|---|---|
| `wrappers.dfy` | `Wrappers` | `Option` and `Result`, for nil values and error returns |
| `levels.dfy` | `Levels` | `zapcore.Level`, `unmarshalLogLevel`, `marshalLogLevel`, `encodeLevel` |
| `zap_config.dfy` | `ZapConfig` | `zap.Config` as a record, `NewCloudZapConfig`, `NewLocalZapConfig` |
| `options.dfy` | `Options` | `Option`, `loggerOptions` (a class), the defaults, `getOptions` (a method with a loop) |
| `engine.dfy` | `Engine` | an abstract view of the engine: handles, fields, `Build`, `With`, and the trace of emit and flush events |
| `zap_option.dfy` | `ZapOption` | `serviceContext.MarshalLogObject`, `GetCloudServiceContextOption`, `AddCloudErrorReportingOption` |
| `logger.dfy` | `Logging` | `Logger`, `NewCloudLogger`, `NewLocalLogger`, the fifteen emission methods |

Modelling choices:

- **Levels.** `Level` is a signed 8-bit newtype, as `zapcore.Level` is
  `int8`. Debug…Fatal are the constants -1…5. This keeps the printer's
  default branch reachable: an unnamed level prints as `INFO`.
- **Parsing is not case-insensitive.** Only the exact lower-case and
  all-upper-case names are recognised, so `"Warn"` parses to Info. The
  model follows the code here.
- **Options.** `getOptions` allocates a mutable record and runs each option
  on it in a loop. It is modelled as the class `Options.LoggerOptions` and
  the method `Options.GetOptions`. That method is proved equal to the fold
  `Options.Resolve`, and the last-write-wins, frame and commutation
  properties are proved about the fold.
- **Constructors.** They build an immutable record in one pass, so they are
  functions over `Options.Resolve`.
- **The engine's `Build`.** It may reject a configuration. The model takes
  it as a parameter `engine: Config -> Option<EngineError>`.
- **Emission methods.** Each one is a method of the `Logger` datatype.
  - It appends events to an `Engine.Trace` object.
  - Its postcondition ties the new trace to `Logging.Emission`.
    `Emission` routes by level threshold: up to Warn goes to the base
    handle, above Warn to the error-path handle.
  - The method bodies route by hard-coded sugared or plain handle, as the
    source does. Verification connects the two.
- **Variadic arguments.** The templated and keyed variants hand `args` to the
  sugared logger without expanding it (logger.go:66, logger.go:111). The
  model records this literally: the engine receives one argument, `Slice(args)`.

## Model

| member | source | states |
|---|---|---|
| `Levels.UnmarshalLevel` | zap_config.go:53-72 | total; always one of the seven named levels; any text outside the fifteen accepted spellings gives Info |
| `Levels.UnmarshalNames` | zap_config.go:55-68 | for each named level, both its lower-case name and that name upper-cased parse to that level |
| `Levels.UnmarshalExactly` | zap_config.go:53-72 | text parses to level l iff it is one of l's spellings, or l is Info and the text is unrecognised (both directions) |
| `Levels.MixedCaseIsInfo` | zap_config.go:69-70 | "Warn", "Error", "Debug", "fAtAl" are not recognised and give Info |
| `Levels.MarshalLevel` | zap_config.go:75-94 | the result is always a Cloud Logging LogSeverity name; every unnamed level prints as INFO |
| `Levels.MarshalMonotone` | zap_config.go:77-90 | on named levels the printer is strictly order-preserving against Cloud Logging's numeric severities, hence injective |
| `Levels.MarshalOfParsedNames` | zap_config.go:53-94 | parse-then-print of each lower-case name: DEBUG, INFO, WARNING, ERROR, CRITICAL, ALERT, EMERGENCY |
| `Levels.UnmarshalOfMarshal` | zap_config.go:53-94 | a printed level parses back to itself iff it is Debug, Info or Error |
| `Levels.EncodeLevel` | zap_config.go:48-50 | appends exactly one string, the level's Cloud Logging name, and keeps what was there |
| `ZapConfig.NewCloudZapConfig` | zap_config.go:9-34 | level is the parse of the text, encoding passes through, not development, sampling (1, 1), keys eventTime/severity/logger/caller/message/stack_trace, the cloud level encoder, both output lists ["stderr"] |
| `ZapConfig.NewLocalZapConfig` | zap_config.go:37-46 | level is the parse of the text, encoding passes through, development, no sampling, development encoder defaults, both output lists ["stderr"] |
| `ZapConfig.LocalIsCloudInDevelopment` | zap_config.go:9-46 | the two builders differ in development mode, sampling and encoder configuration and in nothing else |
| `ZapConfig.CloudKeysDistinct` | zap_config.go:19-24 | no two roles of a cloud record share a key name |
| `Options.ApplyOption` | options.go:20-38 | an option stores its argument verbatim in its own field and leaves the other two unchanged |
| `Options.LoggerOptions.constructor` | options.go:45-49 | the record starts at the defaults |
| `Options.LoggerOptions.Apply` | options.go:20-38 | running an option's closure changes the record as `ApplyOption` says |
| `Options.GetOptions` | options.go:40-56 | the returned triple is the final state after applying the options in list order to the defaults, which is `Resolve` |
| `Options.NoOptionsGiveDefaults` | options.go:14-16 | with no options the result is (false, "golang-app", "debug") |
| `Options.ApplyOptionsAppend` | options.go:50-52 | applying a concatenation is applying its parts in order |
| `Options.UntargetedFieldUnchanged` | options.go:20-38 | a field no option targets keeps its starting value |
| `Options.LastWriteWins` | options.go:50-52 | the last option targeting a field decides that field |
| `Options.StoredVerbatim` | options.go:27-38 | a final ServiceName(x), LogLevel(x) or NeedErrorReporting(b) is returned unchanged, with no validation |
| `Options.ApplyOptionCommutes` | options.go:20-38 | two options for different fields commute |
| `Options.SwapAdjacent` | options.go:50-52 | swapping two adjacent options of different kinds anywhere in a list gives the same settings |
| `ZapOption.MarshalLogObject` | zap_option.go:14-17 | never fails (always nil); adds exactly one entry "service" holding the name, after the existing entries |
| `ZapOption.GetCloudServiceContextOption` | zap_option.go:22-24 | exactly one field, "serviceContext", whose object is the single entry "service" = name |
| `ZapOption.AddCloudErrorReportingOption` | zap_option.go:29-33 | same configuration, the input's fields unchanged, plus one final field "@type" with the constant Error Reporting type |
| `ZapOption.ServiceContextInjective` | zap_option.go:22-24 | distinct service names give distinct serviceContext fields |
| `ZapOption.ErrorReportingAddsOnlyTheTag` | zap_option.go:29-33 | the derived handle carries the tag, exactly the input's fields besides it, and the same service context |
| `Logging.NewCloudLogger` | logger.go:19-40 | fails iff the engine rejects the cloud configuration ("json", resolved level), with a cloud error; otherwise the base handle carries just the serviceContext field, and the error-path handle is the base plus "@type" iff error reporting is on, else the base itself |
| `Logging.NewLocalLogger` | logger.go:44-59 | fails iff the engine rejects the local configuration ("console", resolved level), with a local error; otherwise no static fields, and the error-path handle is the base handle |
| `Logging.EmissionShape` | logger.go:62-181 | every call emits exactly one record at its own level and message; it flushes iff it is templated or keyed, and always on the base sugared handle |
| `Logging.CloudRecordsWithReporting` | logger.go:27-32 | with reporting on, every record names the service, and it carries "@type" iff its level is above Warn |
| `Logging.CloudRecordsWithoutReporting` | logger.go:27-32 | with reporting off, both handles are the same; every record carries the service context and no "@type" |
| `Logging.LocalRecordsUntagged` | logger.go:44-59 | local records never carry "serviceContext" or "@type", and all go to the base handle |
| `Logging.LocalIgnoresOtherOptions` | logger.go:45 | the local logger depends only on the level setting |
| `Logging.LocalLevelLastWriteWins` | logger.go:45-46 | with LogLevel("warn") then LogLevel("error"), the local logger's level is Error |
| `Logging.Logger.Debugf` | logger.go:62-67 | one Debug record on the base handle, then a flush of the base handle |
| `Logging.Logger.Infof` | logger.go:70-75 | one Info record on the base handle, then a flush of the base handle |
| `Logging.Logger.Warnf` | logger.go:80-85 | one Warn record on the base handle, then a flush of the base handle |
| `Logging.Logger.Errorf` | logger.go:90-95 | one Error record on the error-path handle, then a flush of the base handle |
| `Logging.Logger.Fatalf` | logger.go:98-103 | one Fatal record on the error-path handle, then a flush of the base handle |
| `Logging.Logger.Debugw` | logger.go:107-112 | one Debug keyed record on the base handle, then a flush of the base handle |
| `Logging.Logger.Infow` | logger.go:116-121 | one Info keyed record on the base handle, then a flush of the base handle |
| `Logging.Logger.Warnw` | logger.go:127-132 | one Warn keyed record on the base handle, then a flush of the base handle |
| `Logging.Logger.Errorw` | logger.go:138-143 | one Error keyed record on the error-path handle, then a flush of the base handle |
| `Logging.Logger.Fatalw` | logger.go:147-152 | one Fatal keyed record on the error-path handle, then a flush of the base handle |
| `Logging.Logger.Debug` | logger.go:155-157 | one Debug record with the given fields on the base handle, no flush |
| `Logging.Logger.Info` | logger.go:160-162 | one Info record with the given fields on the base handle, no flush |
| `Logging.Logger.Warn` | logger.go:167-169 | one Warn record with the given fields on the base handle, no flush |
| `Logging.Logger.Error` | logger.go:174-176 | one Error record with the given fields on the error-path handle, no flush |
| `Logging.Logger.Fatal` | logger.go:179-181 | one Fatal record with the given fields on the error-path handle, no flush |

## Left out

- Engine internals are not modelled: record encoding, sink I/O, what `Sync`
  really does, sampling windows, and the concurrency of the atomic level.
  They belong to the foreign engine.
- Level filtering is not modelled. The engine drops records below the
  configured level; the trace shows every facade call that hands a record
  to the engine.
- The engine's `Build` is a parameter, because its acceptance rules are
  foreign code.
- `zap.NewDevelopmentEncoderConfig()` and the time, duration and caller
  encoders are kept abstract (`DevelopmentEncoderConfig`,
  `ISO8601TimeEncoder` and so on). They are foreign values.
- printf formatting and key/value pairing are not modelled; only the
  arguments handed to the engine are. This is fmt and engine behaviour.
- Process termination after `Fatal*` is not modelled, and neither is panic
  behaviour. The trace of `Fatalf` and `Fatalw` shows the deferred flush
  because the code schedules it. In a running program the engine exits the
  process inside the call, and Go then skips deferred calls.
- The text of the wrapped construction error is not modelled. Only the error
  and whether it came from the cloud or the local path are.
- Flush errors are not modelled: the source discards them, so a flush is
  only "attempted".
