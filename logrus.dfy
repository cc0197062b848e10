/**
 * The types the logger facade borrows from logrus and from Go's standard
 * library. Only the parts the facade touches are modelled: an entry's
 * engine reference, fields, time, context, message, level and reusable
 * buffer. The dispatch engine itself is an identity with no behaviour.
 */
module Logrus {

  /** A Go byte. */
  newtype byte = x: int | 0 <= x < 256

  /** logrus.Level is a uint32. */
  newtype Level = x: int | 0 <= x < 0x1_0000_0000

  /**
   * A field value (Go's interface{}). The facade itself only ever stores
   * strings and the float64 latency (as the real it
   * stands for); every other value a caller passes is
   * an opaque identity the model never inspects.
   */
  datatype Value =
    | Str(s: string)
      // a float64, by the real number it stands for
    | Float(x: real)
    | Opaque(id: nat)

  /** logrus.Fields and the facade's Data: map[string]interface{}. */
  type Fields = map<string, Value>

  /** A time.Time, opaque: only copied and handed to the renderer. */
  datatype Time = Time(stamp: int)

  /** The zero time.Time{} of a freshly built entry. */
  const ZeroTime := Time(0)

  /** A context.Context, opaque: only copied. NoContext is Go's nil. */
  datatype Context = NoContext | Context(id: nat)

  /** A Go (value, error) pair, with the error's message. */
  datatype Result<T> = Ok(value: T) | Err(msg: string)

  /** The shared *logrus.Logger dispatch engine: levels, hooks, sinks. */
  class Engine {
    constructor ()
    {
    }
  }

  /** A *bytes.Buffer: the bytes written to it so far. */
  class Buffer {
    var bytes: seq<byte>

    constructor ()
      ensures bytes == []
    {
      bytes := [];
    }
  }

  /** A *logrus.Entry, restricted to the fields the facade reads or sets. */
  class Entry {
    var engine: Engine
    var data: Fields
    var time: Time
    var context: Context
    var message: string
    var level: Level
    var buffer: Buffer?

    /** The struct literal &log.Entry{Logger, Data, Time, Context}: the other fields are Go zero values. */
    constructor (engine: Engine, data: Fields, time: Time, context: Context)
      ensures this.engine == engine && this.data == data
      ensures this.time == time && this.context == context
      ensures message == "" && level == 0 && buffer == null
    {
      this.engine := engine;
      this.data := data;
      this.time := time;
      this.context := context;
      message := "";
      level := 0;
      buffer := null;
    }
  }
}
