/**
 * The field-context logger handle: a reference to a shared dispatch engine
 * plus a snapshot of accumulated fields. Every derivation builds a fresh
 * entry with a freshly merged field map and leaves the receiver alone.
 */
module FieldLogger {
  import opened Logrus

  // Severity levels: iota + 2, so they coincide with logrus's own numbering.
  const ErrorLevel: Level := 0 + 2
  const WarnLevel: Level := 1 + 2
  const InfoLevel: Level := 2 + 2
  const DebugLevel: Level := 3 + 2

  /** The levels are 2..5 and grow with verbosity: Error < Warn < Info < Debug. */
  lemma LevelOrder()
    ensures ErrorLevel == 2 && WarnLevel == 3 && InfoLevel == 4 && DebugLevel == 5
    ensures ErrorLevel < WarnLevel < InfoLevel < DebugLevel
  {
  }

  // ---------------------------------------------------------------------
  // Field maps

  /**
   * Right-biased union: every key of either map, the value of `fields`
   * where both have the key, the value of `base` elsewhere.
   */
  function Merge(base: Fields, fields: Fields): (r: Fields)
    ensures r.Keys == base.Keys + fields.Keys
    ensures forall k :: k in fields ==> r[k] == fields[k]
    ensures forall k :: k in base && k !in fields ==> r[k] == base[k]
  {
    base + fields
  }

  /**
   * The two copy loops of WithFields: a new map filled first from the
   * receiver's fields, then from the new fields, so the new ones win.
   */
  method MergeFields(base: Fields, fields: Fields) returns (data: Fields)
    ensures data == Merge(base, fields)
  {
    data := map[];
    var todo := base.Keys;
    while todo != {}
      invariant todo <= base.Keys
      invariant data.Keys == base.Keys - todo
      invariant forall k :: k in data ==> data[k] == base[k]
      decreases todo
    {
      var k :| k in todo;
      data := data[k := base[k]];
      todo := todo - {k};
    }
    todo := fields.Keys;
    while todo != {}
      invariant todo <= fields.Keys
      invariant data.Keys == base.Keys + (fields.Keys - todo)
      invariant forall k :: k in data ==> data[k] == if k in fields && k !in todo then fields[k] else base[k]
      decreases todo
    {
      var k :| k in todo;
      data := data[k := fields[k]];
      todo := todo - {k};
    }
  }

  /** Adding one field is a map update: the key maps to the value, all other keys keep theirs. */
  lemma MergeSingleton(base: Fields, key: string, value: Value)
    ensures Merge(base, map[key := value]) == base[key := value]
  {
  }

  /** Deriving twice equals deriving once with the merge of both argument maps. */
  lemma MergeChain(base: Fields, a: Fields, b: Fields)
    ensures Merge(Merge(base, a), b) == Merge(base, Merge(a, b))
  {
  }

  // ---------------------------------------------------------------------
  // Durations and the latency field

  const MinInt64: int := -0x8000_0000_0000_0000
  const MaxInt64: int := 0x7fff_ffff_ffff_ffff

  /** A time.Duration: an int64 count of nanoseconds. */
  type Duration = d: int | MinInt64 <= d <= MaxInt64

  const Nanosecond: Duration := 1
  const Microsecond: Duration := 1000 * Nanosecond
  const Millisecond: Duration := 1000 * Microsecond
  const Second: Duration := 1000 * Millisecond
  const Minute: Duration := 60 * Second
  const Hour: Duration := 60 * Minute

  /** The key WithLatency writes. */
  const LatencyKey := "latency"

  /** q is a / b rounded toward zero, as Go's integer division gives it. */
  ghost predicate TowardZero(a: int, b: int, q: int)
    requires b > 0
  {
    if a >= 0 then 0 <= q && q * b <= a < q * b + b
    else q <= 0 && q * b - b < a <= q * b
  }

  /** Go's `/` on integers, which truncates toward zero for negative operands too. */
  function TruncDiv(a: int, b: int): (q: int)
    requires b > 0
    ensures TowardZero(a, b, q)
  {
    if a >= 0 then a / b else -((-a) / b)
  }

  lemma MulMonotonic(x: int, y: int, b: int)
    requires b > 0 && x <= y
    ensures x * b <= y * b
  {
  }

  /** At most one quotient rounds toward zero, so TruncDiv is exactly Go's division. */
  lemma TowardZeroUnique(a: int, b: int, q1: int, q2: int)
    requires b > 0 && TowardZero(a, b, q1) && TowardZero(a, b, q2)
    ensures q1 == q2
  {
    if q1 < q2 {
      MulMonotonic(q1 + 1, q2, b);
    } else if q2 < q1 {
      MulMonotonic(q2 + 1, q1, b);
    }
  }

  /**
   * The unit switch of WithLatency. Nanosecond and any unrecognised unit
   * give the raw nanosecond count; Microsecond and Millisecond give a whole
   * count truncated toward zero; Second, Minute and Hour give the quotient
   * of the duration by the unit.
   */
  function LatencyValue(latency: Duration, format: Duration): (r: Value)
    ensures format == Nanosecond ==> r == Float(latency as real)
    ensures format !in {Nanosecond, Microsecond, Millisecond, Second, Minute, Hour} ==> r == Float(latency as real)
    ensures format == Microsecond ==> r.Float? && r.x == r.x.Floor as real && TowardZero(latency, 1000, r.x.Floor)
    ensures format == Millisecond ==> r.Float? && r.x == r.x.Floor as real && TowardZero(latency, 1_000_000, r.x.Floor)
    ensures format in {Second, Minute, Hour} ==> r.Float? && r.x * format as real == latency as real
  {
    if format == Nanosecond then Float(latency as real)
    else if format == Microsecond then Float(TruncDiv(latency, 1000) as real)
    else if format == Millisecond then Float(TruncDiv(latency, 1_000_000) as real)
    else if format == Second then Float(latency as real / Second as real)
    else if format == Minute then Float(latency as real / Minute as real)
    else if format == Hour then Float(latency as real / Hour as real)
    else Float(latency as real)
  }

  /** The raw count a Nanosecond unit gives is also what every unrecognised unit gives. */
  lemma UnknownUnitIsNanoseconds(latency: Duration, format: Duration)
    requires format !in {Nanosecond, Microsecond, Millisecond, Second, Minute, Hour}
    ensures LatencyValue(latency, format) == LatencyValue(latency, Nanosecond)
  {
  }

  /** A whole number of milliseconds, in the Millisecond unit, is that number: nothing is lost to truncation. */
  lemma WholeMilliseconds(n: int)
    requires MinInt64 <= n * 1_000_000 <= MaxInt64
    ensures LatencyValue(n * 1_000_000, Millisecond) == LatencyValue(n, Nanosecond)
  {
  }

  /** A whole number of seconds, in the Second unit, is that number, like the same count of nanoseconds in the Nanosecond unit. */
  lemma WholeSeconds(n: int)
    requires MinInt64 <= n * 1_000_000_000 <= MaxInt64
    ensures LatencyValue(n * 1_000_000_000, Second) == LatencyValue(n, Nanosecond)
  {
  }

  // ---------------------------------------------------------------------
  // The handle

  /** A Logger: a pointer to an entry that carries the engine and the fields. */
  class Logger {
    var entry: Entry

    constructor (entry: Entry)
      ensures this.entry == entry
    {
      this.entry := entry;
    }

    /**
     * A new handle on a new entry whose fields are the receiver's merged
     * with `fields`; engine, time and context are shared, and the receiver
     * and its entry are left unchanged.
     */
    method WithFields(fields: Fields) returns (l: Logger)
      ensures fresh(l) && fresh(l.entry)
      ensures l.entry.data == Merge(entry.data, fields)
      ensures l.entry.engine == entry.engine
      ensures l.entry.time == entry.time && l.entry.context == entry.context
      ensures l.entry.message == "" && l.entry.level == 0 && l.entry.buffer == null
      ensures unchanged(this, entry)
    {
      var data := MergeFields(entry.data, fields);
      var e := new Entry(entry.engine, data, entry.time, entry.context);
      l := new Logger(e);
    }

    /** WithFields with the one-entry map {key: value}. */
    method WithField(key: string, value: Value) returns (l: Logger)
      ensures fresh(l) && fresh(l.entry)
      ensures l.entry.data == entry.data[key := value]
      ensures l.entry.engine == entry.engine
      ensures l.entry.time == entry.time && l.entry.context == entry.context
      ensures l.entry.message == "" && l.entry.level == 0 && l.entry.buffer == null
      ensures unchanged(this, entry)
    {
      l := WithFields(map[key := value]);
      MergeSingleton(entry.data, key, value);
    }

    /** WithField("latency", …) with the latency converted to the chosen unit. */
    method WithLatency(latency: Duration, format: Duration) returns (l: Logger)
      ensures fresh(l) && fresh(l.entry)
      ensures l.entry.data == entry.data[LatencyKey := LatencyValue(latency, format)]
      ensures l.entry.engine == entry.engine
      ensures l.entry.time == entry.time && l.entry.context == entry.context
      ensures l.entry.message == "" && l.entry.level == 0 && l.entry.buffer == null
      ensures unchanged(this, entry)
    {
      var lat := LatencyValue(latency, format);
      l := WithField(LatencyKey, lat);
    }
  }

  /** A handle on a fresh engine, with no fields, zero time and no context. */
  method New() returns (l: Logger)
    ensures fresh(l) && fresh(l.entry) && fresh(l.entry.engine)
    ensures l.entry.data == map[]
    ensures l.entry.time == ZeroTime && l.entry.context == NoContext
    ensures l.entry.message == "" && l.entry.level == 0 && l.entry.buffer == null
  {
    var engine := new Engine();
    var e := new Entry(engine, map[], ZeroTime, NoContext);
    l := new Logger(e);
  }
}
