/**
  The logger facade: its two constructors, which assemble a base handle and
  an error-path handle, and its fifteen emission methods, which route each
  call to one of the two handles and flush the base handle after the
  templated and keyed variants (logger.go).
*/
module Logging {
  import opened Wrappers
  import opened Levels
  import opened ZapConfig
  import opened Engine
  import opened ZapOption
  import Options

  /** Why a constructor failed: the engine rejected the cloud or the local configuration. */
  datatype ConstructError = CloudInitError(cause: EngineError) | LocalInitError(cause: EngineError)

  /**
    The events one facade call produces: one record, on the base handle for
    levels up to Warn and on the error-path handle above, followed by a flush
    of the base handle unless the call passed structured fields.
  */
  function Emission(l: Logger, level: Level, message: Message): seq<Event> {
    var h := if level <= WarnLevel then l.zapLogger else l.errorZapLogger;
    [Emit(h, level, message)] + if message.Structured? then [] else [Sync(l.zapLogger)]
  }

  /** The records among a sequence of events. */
  function Records(events: seq<Event>): seq<Event>
    decreases |events|
  {
    if events == [] then []
    else (if events[0].Emit? then [events[0]] else []) + Records(events[1..])
  }

  /** The logger: a base handle, an error-path handle, and a sugared view of each. */
  datatype Logger = Logger(
    zapLogger: Handle,
    sugar: SugaredLogger,
    errorZapLogger: Handle,
    errorSugar: SugaredLogger)
  {
    /** Each sugared view writes through its own handle. */
    predicate Valid() {
      sugar == Sugar(zapLogger) && errorSugar == Sugar(errorZapLogger)
    }

    method Debugf(out: Trace, template: string, args: seq<Arg>)
      requires Valid()
      modifies out
      ensures out.events == old(out.events) + Emission(this, DebugLevel, Templated(template, [Slice(args)]))
    {
      out.Write(sugar.desugar, DebugLevel, Templated(template, [Slice(args)]));
      out.Flush(sugar.desugar);
    }

    method Infof(out: Trace, template: string, args: seq<Arg>)
      requires Valid()
      modifies out
      ensures out.events == old(out.events) + Emission(this, InfoLevel, Templated(template, [Slice(args)]))
    {
      out.Write(sugar.desugar, InfoLevel, Templated(template, [Slice(args)]));
      out.Flush(sugar.desugar);
    }

    method Warnf(out: Trace, template: string, args: seq<Arg>)
      requires Valid()
      modifies out
      ensures out.events == old(out.events) + Emission(this, WarnLevel, Templated(template, [Slice(args)]))
    {
      out.Write(sugar.desugar, WarnLevel, Templated(template, [Slice(args)]));
      out.Flush(sugar.desugar);
    }

    method Errorf(out: Trace, template: string, args: seq<Arg>)
      requires Valid()
      modifies out
      ensures out.events == old(out.events) + Emission(this, ErrorLevel, Templated(template, [Slice(args)]))
    {
      out.Write(errorSugar.desugar, ErrorLevel, Templated(template, [Slice(args)]));
      out.Flush(sugar.desugar);
    }

    method Fatalf(out: Trace, template: string, args: seq<Arg>)
      requires Valid()
      modifies out
      ensures out.events == old(out.events) + Emission(this, FatalLevel, Templated(template, [Slice(args)]))
    {
      out.Write(errorSugar.desugar, FatalLevel, Templated(template, [Slice(args)]));
      out.Flush(sugar.desugar);
    }

    method Debugw(out: Trace, msg: string, keysAndValues: seq<Arg>)
      requires Valid()
      modifies out
      ensures out.events == old(out.events) + Emission(this, DebugLevel, Keyed(msg, [Slice(keysAndValues)]))
    {
      out.Write(sugar.desugar, DebugLevel, Keyed(msg, [Slice(keysAndValues)]));
      out.Flush(sugar.desugar);
    }

    method Infow(out: Trace, msg: string, keysAndValues: seq<Arg>)
      requires Valid()
      modifies out
      ensures out.events == old(out.events) + Emission(this, InfoLevel, Keyed(msg, [Slice(keysAndValues)]))
    {
      out.Write(sugar.desugar, InfoLevel, Keyed(msg, [Slice(keysAndValues)]));
      out.Flush(sugar.desugar);
    }

    method Warnw(out: Trace, msg: string, keysAndValues: seq<Arg>)
      requires Valid()
      modifies out
      ensures out.events == old(out.events) + Emission(this, WarnLevel, Keyed(msg, [Slice(keysAndValues)]))
    {
      out.Write(sugar.desugar, WarnLevel, Keyed(msg, [Slice(keysAndValues)]));
      out.Flush(sugar.desugar);
    }

    method Errorw(out: Trace, msg: string, keysAndValues: seq<Arg>)
      requires Valid()
      modifies out
      ensures out.events == old(out.events) + Emission(this, ErrorLevel, Keyed(msg, [Slice(keysAndValues)]))
    {
      out.Write(errorSugar.desugar, ErrorLevel, Keyed(msg, [Slice(keysAndValues)]));
      out.Flush(sugar.desugar);
    }

    method Fatalw(out: Trace, msg: string, keysAndValues: seq<Arg>)
      requires Valid()
      modifies out
      ensures out.events == old(out.events) + Emission(this, FatalLevel, Keyed(msg, [Slice(keysAndValues)]))
    {
      out.Write(errorSugar.desugar, FatalLevel, Keyed(msg, [Slice(keysAndValues)]));
      out.Flush(sugar.desugar);
    }

    method Debug(out: Trace, msg: string, fields: seq<Field>)
      modifies out
      ensures out.events == old(out.events) + Emission(this, DebugLevel, Structured(msg, fields))
    {
      out.Write(zapLogger, DebugLevel, Structured(msg, fields));
    }

    method Info(out: Trace, msg: string, fields: seq<Field>)
      modifies out
      ensures out.events == old(out.events) + Emission(this, InfoLevel, Structured(msg, fields))
    {
      out.Write(zapLogger, InfoLevel, Structured(msg, fields));
    }

    method Warn(out: Trace, msg: string, fields: seq<Field>)
      modifies out
      ensures out.events == old(out.events) + Emission(this, WarnLevel, Structured(msg, fields))
    {
      out.Write(zapLogger, WarnLevel, Structured(msg, fields));
    }

    method Error(out: Trace, msg: string, fields: seq<Field>)
      modifies out
      ensures out.events == old(out.events) + Emission(this, ErrorLevel, Structured(msg, fields))
    {
      out.Write(errorZapLogger, ErrorLevel, Structured(msg, fields));
    }

    method Fatal(out: Trace, msg: string, fields: seq<Field>)
      modifies out
      ensures out.events == old(out.events) + Emission(this, FatalLevel, Structured(msg, fields))
    {
      out.Write(errorZapLogger, FatalLevel, Structured(msg, fields));
    }
  }

  /**
    The cloud constructor: JSON encoding, the service-context block on the
    base handle, and the type tag on the error-path handle only when error
    reporting is requested.
  */
  function NewCloudLogger(options: seq<Options.Option>,
                          engine: Config -> Option<EngineError>): (r: Result<Logger, ConstructError>)
    ensures var s := Options.Resolve(options);
            var config := NewCloudZapConfig(s.logLevel, "json");
            && (r.Err? <==> engine(config).Some?)
            && (r.Err? ==> r.error == CloudInitError(engine(config).value))
            && (r.Ok? ==> r.value.Valid()
                          && r.value.zapLogger == Handle(config, [ServiceContextField(s.serviceName)])
                          && r.value.errorZapLogger ==
                               if s.needErrorReporting then AddCloudErrorReportingOption(r.value.zapLogger)
                               else r.value.zapLogger)
  {
    var s := Options.Resolve(options);
    var config := NewCloudZapConfig(s.logLevel, "json");
    var option := GetCloudServiceContextOption(s.serviceName);
    assert OptionFields([option]) == option.fields by { assert [option][1..] == []; }
    match Build(config, [option], engine)
    case Err(e) => Err(CloudInitError(e))
    case Ok(zapLogger) =>
      var errorZapLogger :=
        if s.needErrorReporting then AddCloudErrorReportingOption(zapLogger) else zapLogger;
      Ok(Logger(zapLogger, Sugar(zapLogger), errorZapLogger, Sugar(errorZapLogger)))
  }

  /**
    The local constructor: console encoding and only the level setting; the
    error-path handle is the base handle.
  */
  function NewLocalLogger(options: seq<Options.Option>,
                          engine: Config -> Option<EngineError>): (r: Result<Logger, ConstructError>)
    ensures var config := NewLocalZapConfig(Options.Resolve(options).logLevel, "console");
            && (r.Err? <==> engine(config).Some?)
            && (r.Err? ==> r.error == LocalInitError(engine(config).value))
            && (r.Ok? ==> r.value.Valid()
                          && r.value.zapLogger == Handle(config, [])
                          && r.value.errorZapLogger == r.value.zapLogger)
  {
    var config := NewLocalZapConfig(Options.Resolve(options).logLevel, "console");
    match Build(config, [], engine)
    case Err(e) => Err(LocalInitError(e))
    case Ok(zapLogger) =>
      var errorZapLogger := zapLogger;
      Ok(Logger(zapLogger, Sugar(zapLogger), errorZapLogger, Sugar(errorZapLogger)))
  }

  /**
    Every facade call emits exactly one record, at its own level and with its
    own message; it flushes, once and on the base handle, exactly when it is
    a templated or keyed call.
  */
  lemma EmissionShape(l: Logger, level: Level, message: Message)
    requires l.Valid()
    ensures var evs := Emission(l, level, message);
            && Records(evs) == [evs[0]]
            && evs[0].level == level && evs[0].message == message
            && (|evs| == 2 <==> !message.Structured?)
            && forall i :: 0 <= i < |evs| && evs[i].Sync? ==> evs[i].handle == l.sugar.desugar
  {
    var evs := Emission(l, level, message);
    if message.Structured? {
      assert evs[1..] == [];
    } else {
      assert evs[1..] == [Sync(l.zapLogger)];
      assert evs[1..][1..] == [];
      assert Records(evs[1..]) == [];
    }
  }

  /**
    With error reporting on, every cloud record names the service, and a
    record carries the Error Reporting tag exactly when its level is above Warn.
  */
  lemma CloudRecordsWithReporting(options: seq<Options.Option>, engine: Config -> Option<EngineError>,
                                  level: Level, message: Message)
    requires NewCloudLogger(options, engine).Ok?
    requires Options.Resolve(options).needErrorReporting
    ensures var h := Emission(NewCloudLogger(options, engine).value, level, message)[0].handle;
            && CarriesService(h, Options.Resolve(options).serviceName)
            && (CarriesTypeTag(h) <==> WarnLevel < level)
  {
    var l := NewCloudLogger(options, engine).value;
    var name := Options.Resolve(options).serviceName;
    ErrorReportingAddsOnlyTheTag(l.zapLogger, TypeField);
    assert CarriesService(l.errorZapLogger, name) <==> CarriesService(l.zapLogger, name);
    assert l.zapLogger.fields == [ServiceContextField(name)];
    assert ServiceContextField(name) != TypeField;
  }

  /**
    With error reporting off, the two handles coincide: every record carries
    the same fields, the service context and no type tag.
  */
  lemma CloudRecordsWithoutReporting(options: seq<Options.Option>, engine: Config -> Option<EngineError>,
                                     level: Level, message: Message)
    requires NewCloudLogger(options, engine).Ok?
    requires !Options.Resolve(options).needErrorReporting
    ensures var l := NewCloudLogger(options, engine).value;
            var h := Emission(l, level, message)[0].handle;
            && l.errorZapLogger == l.zapLogger && h == l.zapLogger
            && CarriesService(h, Options.Resolve(options).serviceName)
            && !HasKey(h, TypeKey)
  {
    var l := NewCloudLogger(options, engine).value;
    assert l.zapLogger.fields[0].key == ServiceContextKey;
  }

  /** A local logger never attaches the service context or the type tag. */
  lemma LocalRecordsUntagged(options: seq<Options.Option>, engine: Config -> Option<EngineError>,
                             level: Level, message: Message)
    requires NewLocalLogger(options, engine).Ok?
    ensures var l := NewLocalLogger(options, engine).value;
            var h := Emission(l, level, message)[0].handle;
            && h == l.zapLogger
            && !HasKey(h, ServiceContextKey) && !HasKey(h, TypeKey)
  {
  }

  /** The local constructor reads only the level setting. */
  lemma LocalIgnoresOtherOptions(o1: seq<Options.Option>, o2: seq<Options.Option>,
                                 engine: Config -> Option<EngineError>)
    requires Options.Resolve(o1).logLevel == Options.Resolve(o2).logLevel
    ensures NewLocalLogger(o1, engine) == NewLocalLogger(o2, engine)
  {
  }

  /** Of two level options the later one decides the logger's level. */
  lemma LocalLevelLastWriteWins(engine: Config -> Option<EngineError>)
    requires NewLocalLogger([Options.LogLevel("warn"), Options.LogLevel("error")], engine).Ok?
    ensures NewLocalLogger([Options.LogLevel("warn"), Options.LogLevel("error")], engine)
              .value.zapLogger.config.level == ErrorLevel
  {
    var opts := [Options.LogLevel("warn"), Options.LogLevel("error")];
    Options.LastWriteWins(Options.Defaults, opts, 1);
  }
}
