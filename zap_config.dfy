/**
  The two fixed engine configurations, one for the cloud environment and one
  for local development (zap_config.go).
*/
module ZapConfig {
  import opened Wrappers
  import opened Levels

  /** Log the first record of a kind, then one of every `thereafter` duplicates. */
  datatype SamplingConfig = SamplingConfig(initial: int, thereafter: int)

  /** The engine's encoder functions, which this model keeps abstract. */
  datatype TimeEncoder = ISO8601TimeEncoder
  datatype DurationEncoder = SecondsDurationEncoder
  datatype CallerEncoder = ShortCallerEncoder
  /** `encodeLevel`: writes MarshalLevel of the record's level. */
  datatype LevelEncoder = CloudSeverityEncoder

  /**
    Key names and encoders of a record. The local configuration uses the
    engine's development defaults, whose contents are not modelled.
  */
  datatype EncoderConfig =
    | EncoderConfig(timeKey: string, levelKey: string, nameKey: string, callerKey: string,
                    messageKey: string, stacktraceKey: string, encodeTime: TimeEncoder,
                    lineEnding: string, encodeLevel: LevelEncoder,
                    encodeDuration: DurationEncoder, encodeCaller: CallerEncoder)
    | DevelopmentEncoderConfig

  datatype Config = Config(
    level: Level,
    development: bool,
    sampling: Option<SamplingConfig>,
    encoding: string,
    encoderConfig: EncoderConfig,
    outputPaths: seq<string>,
    errorOutputPaths: seq<string>)

  /** The engine's default line ending. */
  const DefaultLineEnding := "\n"

  /** The key names Cloud Logging expects in a structured record. */
  const CloudEncoderConfig :=
    EncoderConfig("eventTime", "severity", "logger", "caller", "message", "stack_trace",
                  ISO8601TimeEncoder, DefaultLineEnding, CloudSeverityEncoder,
                  SecondsDurationEncoder, ShortCallerEncoder)

  /** The key names of a record, in the order time, level, name, caller, message, stack trace. */
  function Keys(e: EncoderConfig): seq<string>
    requires e.EncoderConfig?
  {
    [e.timeKey, e.levelKey, e.nameKey, e.callerKey, e.messageKey, e.stacktraceKey]
  }

  function NewCloudZapConfig(level: string, encoding: string): (c: Config)
    ensures c.level == UnmarshalLevel(level) && c.encoding == encoding
    ensures !c.development && c.sampling == Some(SamplingConfig(1, 1))
    ensures c.encoderConfig.EncoderConfig? && c.encoderConfig.encodeLevel == CloudSeverityEncoder
    ensures Keys(c.encoderConfig) ==
              ["eventTime", "severity", "logger", "caller", "message", "stack_trace"]
    ensures c.outputPaths == ["stderr"] && c.errorOutputPaths == ["stderr"]
  {
    Config(
      level := UnmarshalLevel(level),
      development := false,
      sampling := Some(SamplingConfig(1, 1)),
      encoding := encoding,
      encoderConfig := CloudEncoderConfig,
      outputPaths := ["stderr"],
      errorOutputPaths := ["stderr"])
  }

  function NewLocalZapConfig(level: string, encoding: string): (c: Config)
    ensures c.level == UnmarshalLevel(level) && c.encoding == encoding
    ensures c.development && c.sampling == None
    ensures c.encoderConfig == DevelopmentEncoderConfig
    ensures c.outputPaths == ["stderr"] && c.errorOutputPaths == ["stderr"]
  {
    Config(
      level := UnmarshalLevel(level),
      development := true,
      sampling := None,
      encoding := encoding,
      encoderConfig := DevelopmentEncoderConfig,
      outputPaths := ["stderr"],
      errorOutputPaths := ["stderr"])
  }

  /**
    The two builders agree on level, encoding and output destinations and
    differ only in development mode, sampling and encoder configuration.
  */
  lemma LocalIsCloudInDevelopment(level: string, encoding: string)
    ensures NewLocalZapConfig(level, encoding) ==
              NewCloudZapConfig(level, encoding).(development := true, sampling := None,
                                                   encoderConfig := DevelopmentEncoderConfig)
  {
  }

  /** No two roles of a cloud record share a key. */
  lemma CloudKeysDistinct(level: string, encoding: string)
    ensures var ks := Keys(NewCloudZapConfig(level, encoding).encoderConfig);
            forall i, j :: 0 <= i < j < |ks| ==> ks[i] != ks[j]
  {
  }
}
