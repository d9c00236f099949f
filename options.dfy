/**
  Functional options for the logger constructors and their resolution into
  a fully defaulted settings record (options.go).
*/
module Options {

  /** An override of one setting; applying it assigns that one field. */
  datatype Option =
    | NeedErrorReporting(flag: bool)
    | ServiceName(name: string)
    | LogLevel(level: string)

  /** The resolved settings: error-reporting flag, service name, level text. */
  datatype Settings = Settings(needErrorReporting: bool, serviceName: string, logLevel: string)

  const DefaultNeedErrorReporting := false
  const DefaultServiceName := "golang-app"
  const DefaultLogLevel := "debug"

  const Defaults := Settings(DefaultNeedErrorReporting, DefaultServiceName, DefaultLogLevel)

  /** The three settings, and a value any one of them can hold. */
  datatype FieldName = ErrorReportingField | ServiceNameField | LogLevelField
  datatype Value = Flag(b: bool) | Text(t: string)

  function Get(s: Settings, f: FieldName): Value {
    match f
    case ErrorReportingField => Flag(s.needErrorReporting)
    case ServiceNameField => Text(s.serviceName)
    case LogLevelField => Text(s.logLevel)
  }

  /** The field an option assigns, and the value it assigns there. */
  function Target(o: Option): FieldName {
    match o
    case NeedErrorReporting(_) => ErrorReportingField
    case ServiceName(_) => ServiceNameField
    case LogLevel(_) => LogLevelField
  }

  function Written(o: Option): Value {
    match o
    case NeedErrorReporting(b) => Flag(b)
    case ServiceName(n) => Text(n)
    case LogLevel(l) => Text(l)
  }

  /** Applying one option stores its value verbatim and changes no other field. */
  function ApplyOption(s: Settings, o: Option): (r: Settings)
    ensures forall f :: Get(r, f) == if f == Target(o) then Written(o) else Get(s, f)
  {
    match o
    case NeedErrorReporting(b) => s.(needErrorReporting := b)
    case ServiceName(n) => s.(serviceName := n)
    case LogLevel(l) => s.(logLevel := l)
  }

  /** Applies the options in list order, each to the result of the ones before it. */
  function ApplyOptions(s: Settings, options: seq<Option>): Settings
    decreases |options|
  {
    if options == [] then s
    else ApplyOption(ApplyOptions(s, options[..|options| - 1]), options[|options| - 1])
  }

  /** The settings `getOptions` returns for a list of options. */
  function Resolve(options: seq<Option>): Settings {
    ApplyOptions(Defaults, options)
  }

  /** The mutable settings record the options are applied to. */
  class LoggerOptions {
    var needErrorReporting: bool
    var serviceName: string
    var logLevel: string

    function Value(): Settings
      reads this
    {
      Settings(needErrorReporting, serviceName, logLevel)
    }

    constructor ()
      ensures Value() == Defaults
    {
      needErrorReporting := DefaultNeedErrorReporting;
      serviceName := DefaultServiceName;
      logLevel := DefaultLogLevel;
    }

    /** Runs the option's closure on this record. */
    method Apply(o: Option)
      modifies this
      ensures Value() == ApplyOption(old(Value()), o)
    {
      match o
      case NeedErrorReporting(b) => needErrorReporting := b;
      case ServiceName(n) => serviceName := n;
      case LogLevel(l) => logLevel := l;
    }
  }

  /** Starts from the defaults and applies every option in order. */
  method GetOptions(options: seq<Option>)
    returns (needErrorReporting: bool, serviceName: string, logLevel: string)
    ensures Settings(needErrorReporting, serviceName, logLevel) == Resolve(options)
  {
    var lo := new LoggerOptions();
    for i := 0 to |options|
      invariant lo.Value() == ApplyOptions(Defaults, options[..i])
    {
      assert options[..i + 1][..i] == options[..i];
      lo.Apply(options[i]);
    }
    assert options[..|options|] == options;
    needErrorReporting := lo.needErrorReporting;
    serviceName := lo.serviceName;
    logLevel := lo.logLevel;
  }

  /** Settings that agree on every field are equal. */
  lemma SettingsByFields(s: Settings, t: Settings)
    requires forall f :: Get(s, f) == Get(t, f)
    ensures s == t
  {
    assert Get(s, ErrorReportingField) == Get(t, ErrorReportingField);
    assert Get(s, ServiceNameField) == Get(t, ServiceNameField);
    assert Get(s, LogLevelField) == Get(t, LogLevelField);
  }

  /** With no options every field keeps its default. */
  lemma NoOptionsGiveDefaults()
    ensures Resolve([]) == Settings(false, "golang-app", "debug")
  {
  }

  /** Applying a concatenation is applying its two parts one after the other. */
  lemma {:induction false} ApplyOptionsAppend(s: Settings, a: seq<Option>, b: seq<Option>)
    ensures ApplyOptions(s, a + b) == ApplyOptions(ApplyOptions(s, a), b)
    decreases |b|
  {
    if b == [] {
      assert a + b == a;
    } else {
      var n := |b| - 1;
      assert (a + b)[..|a + b| - 1] == a + b[..n];
      assert (a + b)[|a + b| - 1] == b[n];
      ApplyOptionsAppend(s, a, b[..n]);
    }
  }

  /** A field no option targets keeps the value it started with. */
  lemma {:induction false} UntargetedFieldUnchanged(s: Settings, options: seq<Option>, f: FieldName)
    requires forall i :: 0 <= i < |options| ==> Target(options[i]) != f
    ensures Get(ApplyOptions(s, options), f) == Get(s, f)
    decreases |options|
  {
    if options != [] {
      var n := |options| - 1;
      assert forall i :: 0 <= i < n ==> options[..n][i] == options[i];
      UntargetedFieldUnchanged(s, options[..n], f);
      assert Target(options[n]) != f;
    }
  }

  /** Last write wins: the last option that targets a field decides its value. */
  lemma {:induction false} LastWriteWins(s: Settings, options: seq<Option>, i: int)
    requires 0 <= i < |options|
    requires forall j :: i < j < |options| ==> Target(options[j]) != Target(options[i])
    ensures Get(ApplyOptions(s, options), Target(options[i])) == Written(options[i])
  {
    var f := Target(options[i]);
    var prefix, suffix := options[..i + 1], options[i + 1..];
    assert options == prefix + suffix;
    ApplyOptionsAppend(s, prefix, suffix);
    assert prefix[..i] == options[..i];
    forall j | 0 <= j < |suffix| ensures Target(suffix[j]) != f {
      assert suffix[j] == options[i + 1 + j];
    }
    UntargetedFieldUnchanged(ApplyOptions(s, prefix), suffix, f);
  }

  /** The option constructors store their argument without validation. */
  lemma StoredVerbatim(options: seq<Option>, x: string, b: bool)
    ensures Resolve(options + [ServiceName(x)]).serviceName == x
    ensures Resolve(options + [LogLevel(x)]).logLevel == x
    ensures Resolve(options + [NeedErrorReporting(b)]).needErrorReporting == b
  {
    assert (options + [ServiceName(x)])[..|options|] == options;
    assert (options + [LogLevel(x)])[..|options|] == options;
    assert (options + [NeedErrorReporting(b)])[..|options|] == options;
  }

  /** Options that target different fields commute. */
  lemma ApplyOptionCommutes(s: Settings, o1: Option, o2: Option)
    requires Target(o1) != Target(o2)
    ensures ApplyOption(ApplyOption(s, o1), o2) == ApplyOption(ApplyOption(s, o2), o1)
  {
    SettingsByFields(ApplyOption(ApplyOption(s, o1), o2), ApplyOption(ApplyOption(s, o2), o1));
  }

  /** Swapping two adjacent options of different kinds anywhere in the list changes nothing. */
  lemma SwapAdjacent(s: Settings, a: seq<Option>, o1: Option, o2: Option, b: seq<Option>)
    requires Target(o1) != Target(o2)
    ensures ApplyOptions(s, a + [o1, o2] + b) == ApplyOptions(s, a + [o2, o1] + b)
  {
    ApplyOptionsAppend(s, a + [o1, o2], b);
    ApplyOptionsAppend(s, a + [o2, o1], b);
    ApplyOptionsAppend(s, a, [o1, o2]);
    ApplyOptionsAppend(s, a, [o2, o1]);
    var t := ApplyOptions(s, a);
    assert [o1, o2][..1] == [o1] && [o2, o1][..1] == [o2];
    assert [o1][..0] == [] && [o2][..0] == [];
    assert ApplyOptions(t, [o1]) == ApplyOption(t, o1);
    assert ApplyOptions(t, [o2]) == ApplyOption(t, o2);
    assert ApplyOptions(t, [o1, o2]) == ApplyOption(ApplyOption(t, o1), o2);
    assert ApplyOptions(t, [o2, o1]) == ApplyOption(ApplyOption(t, o2), o1);
    ApplyOptionCommutes(t, o1, o2);
  }
}
