/**
  An abstract view of the logging engine the facade configures: a handle is
  the configuration it was built from and the static fields it attaches to
  every record; emitting and flushing are events appended to a trace.
  Record encoding, sinks and sampling are not modelled.
*/
module Engine {
  import opened Wrappers
  import opened Levels
  import opened ZapConfig

  /** One string entry written by an object marshaller. */
  datatype Entry = Entry(key: string, value: string)

  datatype FieldValue = StringValue(text: string) | ObjectValue(entries: seq<Entry>)

  /** A structured field attached to a record. */
  datatype Field = Field(key: string, value: FieldValue)

  /** A construction option of the engine; only the one that adds static fields is used. */
  datatype ZapOption = Fields(fields: seq<Field>)

  /** A logger handle: its configuration and the static fields of its records. */
  datatype Handle = Handle(config: Config, fields: seq<Field>)

  /** The error the engine reports when it rejects a configuration. */
  datatype EngineError = EngineError(reason: string)

  /** A sugared view of a handle; it writes through the same handle. */
  datatype SugaredLogger = SugaredLogger(desugar: Handle)

  function Sugar(h: Handle): SugaredLogger {
    SugaredLogger(h)
  }

  /** The static fields a list of construction options adds, in order. */
  function OptionFields(options: seq<ZapOption>): seq<Field>
    decreases |options|
  {
    if options == [] then [] else options[0].fields + OptionFields(options[1..])
  }

  /**
    Builds a handle from a configuration. Whether the engine accepts the
    configuration is outside this model and is given by `engine`.
  */
  function Build(config: Config, options: seq<ZapOption>,
                 engine: Config -> Option<EngineError>): Result<Handle, EngineError>
  {
    match engine(config)
    case Some(e) => Err(e)
    case None => Ok(Handle(config, OptionFields(options)))
  }

  /** A derived handle that also attaches `fs`; the original is left as it was. */
  function With(h: Handle, fs: seq<Field>): Handle {
    Handle(h.config, h.fields + fs)
  }

  /** Does a handle attach a field under this key? */
  predicate HasKey(h: Handle, key: string) {
    exists i :: 0 <= i < |h.fields| && h.fields[i].key == key
  }

  /** A variadic argument; a slice handed on without expansion is one argument. */
  datatype Arg = Scalar(text: string) | Slice(items: seq<Arg>)

  /** What a facade call hands to the engine. */
  datatype Message =
    | Templated(template: string, args: seq<Arg>)
    | Keyed(msg: string, keysAndValues: seq<Arg>)
    | Structured(msg: string, fields: seq<Field>)

  /** The observable behaviour: records emitted on handles, and flushes. */
  datatype Event = Emit(handle: Handle, level: Level, message: Message) | Sync(handle: Handle)

  /** The engine's output, as the sequence of events it has seen. */
  class Trace {
    var events: seq<Event>

    constructor ()
      ensures events == []
    {
      events := [];
    }

    /** Emits one record on `h`. */
    method Write(h: Handle, level: Level, message: Message)
      modifies this
      ensures events == old(events) + [Emit(h, level, message)]
    {
      events := events + [Emit(h, level, message)];
    }

    /** Flushes `h`; a failure to flush is discarded. */
    method Flush(h: Handle)
      modifies this
      ensures events == old(events) + [Sync(h)]
    {
      events := events + [Sync(h)];
    }
  }
}
