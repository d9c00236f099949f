/**
  Severity levels of the logging engine, the parser that turns configuration
  text into a level and the printer that names a level in the Cloud Logging
  LogSeverity vocabulary (zap_config.go).
*/
module Levels {

  /** The engine's level type is a signed 8-bit integer. */
  newtype Level = x: int | -128 <= x < 128

  const DebugLevel: Level := -1
  const InfoLevel: Level := 0
  const WarnLevel: Level := 1
  const ErrorLevel: Level := 2
  const DPanicLevel: Level := 3
  const PanicLevel: Level := 4
  const FatalLevel: Level := 5

  /** The seven levels that carry a name, Debug < Info < ... < Fatal. */
  predicate IsNamed(l: Level) {
    DebugLevel <= l <= FatalLevel
  }

  /** The lower-case name of a named level. */
  function LowerName(l: Level): string
    requires IsNamed(l)
  {
    if l == DebugLevel then "debug"
    else if l == InfoLevel then "info"
    else if l == WarnLevel then "warn"
    else if l == ErrorLevel then "error"
    else if l == DPanicLevel then "dpanic"
    else if l == PanicLevel then "panic"
    else "fatal"
  }

  /** ASCII upper-casing, letter by letter. */
  function UpperChar(c: char): char {
    if 'a' <= c <= 'z' then (c as int - 32) as char else c
  }

  function UpperAscii(s: string): string {
    seq(|s|, i requires 0 <= i < |s| => UpperChar(s[i]))
  }

  /** The all-upper-case name of a named level. */
  function UpperName(l: Level): string
    requires IsNamed(l)
  {
    if l == DebugLevel then "DEBUG"
    else if l == InfoLevel then "INFO"
    else if l == WarnLevel then "WARN"
    else if l == ErrorLevel then "ERROR"
    else if l == DPanicLevel then "DPANIC"
    else if l == PanicLevel then "PANIC"
    else "FATAL"
  }

  /** The upper-case table is the lower-case names upper-cased. */
  lemma UpperNameIsUpperCased(l: Level)
    requires IsNamed(l)
    ensures UpperAscii(LowerName(l)) == UpperName(l)
  {
    if l == DebugLevel { assert UpperAscii("debug") == "DEBUG"; }
    else if l == InfoLevel { assert UpperAscii("info") == "INFO"; }
    else if l == WarnLevel { assert UpperAscii("warn") == "WARN"; }
    else if l == ErrorLevel { assert UpperAscii("error") == "ERROR"; }
    else if l == DPanicLevel { assert UpperAscii("dpanic") == "DPANIC"; }
    else if l == PanicLevel { assert UpperAscii("panic") == "PANIC"; }
    else { assert UpperAscii("fatal") == "FATAL"; }
  }

  /** Every text the parser recognises; everything else falls to the default. */
  const AcceptedSpellings: set<string> :=
    {"debug", "DEBUG", "info", "INFO", "", "warn", "WARN", "error", "ERROR",
     "dpanic", "DPANIC", "panic", "PANIC", "fatal", "FATAL"}

  /** The texts that the parser maps to a named level by an explicit case. */
  function Spellings(l: Level): set<string>
    requires IsNamed(l)
  {
    {LowerName(l), UpperName(l)} + (if l == InfoLevel then {""} else {})
  }

  /**
    Parses configuration text. Only the exact lower-case and all-upper-case
    names are recognised; the empty text and any other text give Info.
  */
  function UnmarshalLevel(text: string): (l: Level)
    ensures IsNamed(l)
    ensures text !in AcceptedSpellings ==> l == InfoLevel
  {
    if text == "debug" || text == "DEBUG" then DebugLevel
    else if text == "info" || text == "INFO" || text == "" then InfoLevel
    else if text == "warn" || text == "WARN" then WarnLevel
    else if text == "error" || text == "ERROR" then ErrorLevel
    else if text == "dpanic" || text == "DPANIC" then DPanicLevel
    else if text == "panic" || text == "PANIC" then PanicLevel
    else if text == "fatal" || text == "FATAL" then FatalLevel
    else InfoLevel
  }

  /** Both spellings of each name parse to the level that name denotes. */
  lemma UnmarshalNames(l: Level)
    requires IsNamed(l)
    ensures UnmarshalLevel(LowerName(l)) == l
    ensures UnmarshalLevel(UpperAscii(LowerName(l))) == l
  {
    UpperNameIsUpperCased(l);
  }

  /**
    The parser exactly: a text parses to a named level l iff it is one of
    l's spellings, or l is Info and the text is not recognised at all.
  */
  lemma UnmarshalExactly(text: string, l: Level)
    requires IsNamed(l)
    ensures UnmarshalLevel(text) == l <==>
              text in Spellings(l) || (l == InfoLevel && text !in AcceptedSpellings)
  {
  }

  /** Capitalised and other mixed-case names are not recognised. */
  lemma MixedCaseIsInfo()
    ensures UnmarshalLevel("Warn") == InfoLevel
    ensures UnmarshalLevel("Error") == InfoLevel
    ensures UnmarshalLevel("Debug") == InfoLevel
    ensures UnmarshalLevel("fAtAl") == InfoLevel
  {
  }

  /** The full Cloud Logging LogSeverity vocabulary. */
  const CloudSeverities: set<string> :=
    {"DEFAULT", "DEBUG", "INFO", "NOTICE", "WARNING", "ERROR", "CRITICAL", "ALERT", "EMERGENCY"}

  /** The numeric value Cloud Logging assigns to each LogSeverity name. */
  function SeverityValue(name: string): int
    requires name in CloudSeverities
  {
    match name
    case "DEFAULT" => 0
    case "DEBUG" => 100
    case "INFO" => 200
    case "NOTICE" => 300
    case "WARNING" => 400
    case "ERROR" => 500
    case "CRITICAL" => 600
    case "ALERT" => 700
    case "EMERGENCY" => 800
  }

  /** Names a level in the Cloud Logging vocabulary; unnamed levels print as INFO. */
  function MarshalLevel(l: Level): (s: string)
    ensures s in CloudSeverities
    ensures !IsNamed(l) ==> s == "INFO"
  {
    if l == DebugLevel then "DEBUG"
    else if l == InfoLevel then "INFO"
    else if l == WarnLevel then "WARNING"
    else if l == ErrorLevel then "ERROR"
    else if l == DPanicLevel then "CRITICAL"
    else if l == PanicLevel then "ALERT"
    else if l == FatalLevel then "EMERGENCY"
    else "INFO"
  }

  /** The printer preserves the order of the named levels, so it is injective on them. */
  lemma MarshalMonotone(a: Level, b: Level)
    requires IsNamed(a) && IsNamed(b) && a < b
    ensures SeverityValue(MarshalLevel(a)) < SeverityValue(MarshalLevel(b))
    ensures MarshalLevel(a) != MarshalLevel(b)
  {
  }

  /** Parsing a name and then printing it: Warn, DPanic, Panic and Fatal are renamed. */
  lemma MarshalOfParsedNames()
    ensures MarshalLevel(UnmarshalLevel("debug")) == "DEBUG"
    ensures MarshalLevel(UnmarshalLevel("info")) == "INFO"
    ensures MarshalLevel(UnmarshalLevel("warn")) == "WARNING"
    ensures MarshalLevel(UnmarshalLevel("error")) == "ERROR"
    ensures MarshalLevel(UnmarshalLevel("dpanic")) == "CRITICAL"
    ensures MarshalLevel(UnmarshalLevel("panic")) == "ALERT"
    ensures MarshalLevel(UnmarshalLevel("fatal")) == "EMERGENCY"
  {
  }

  /**
    The printed name parses back to the same level only where the two
    vocabularies share the word: Debug, Info and Error.
  */
  lemma UnmarshalOfMarshal(l: Level)
    ensures UnmarshalLevel(MarshalLevel(l)) == l <==>
              l == DebugLevel || l == InfoLevel || l == ErrorLevel
  {
  }

  /** The level encoder of the cloud configuration: appends the printed name. */
  function EncodeLevel(l: Level, enc: seq<string>): (r: seq<string>)
    ensures |r| == |enc| + 1 && r[..|enc|] == enc
    ensures r[|enc|] in CloudSeverities && r[|enc|] == MarshalLevel(l)
  {
    enc + [MarshalLevel(l)]
  }
}
