# Structured-logging facade over logrus, modelled in Dafny

The Go package `logger` wraps a logrus dispatch engine. A `Logger` handle
points to a logrus entry that holds the shared engine and a snapshot of the
accumulated fields. `WithFields`, `WithField` and `WithLatency` each build a
new entry with a freshly merged field map and share the engine, time and
context of the receiver. `JSONLogger.Format` renders an entry: it copies the
caller's fields, adds `time` unless timestamps are disabled, always
overwrites `msg` and `level`, and hands the map to a JSON encoder.

Files:

- `logrus.dfy` (module `Logrus`): stand-ins for the borrowed types. These are
  field values, `Fields`, `Level` (a uint32), opaque `Time` and `Context`,
  the engine, a byte buffer and the logrus `Entry` restricted to the fields
  the facade uses.
- `logger.dfy` (module `FieldLogger`): the level constants, the right-biased
  merge and its two copy loops, Go's truncating division, the latency unit
  switch, and the `Logger` class with `WithFields`, `WithField`,
  `WithLatency` and `New`.
- `json_formatter.dfy` (module `JsonFormat`): the `JSONLogger` configuration,
  the composed map, the encoder settings and `Format`.

The collaborators whose code is not part of this model are parameters of
`Format`:

- `formatTime` stands for `time.Time.Format`.
- `levelName` stands for logrus's `Level.String`.
- `encode` stands for `json.Encoder.Encode`. It may fail with a cause.

The comment on `TimestampFormat` (json_formatter.go:22-25) says it sets the
format used for marshaling timestamps. `Format` does work out the effective
layout: the configured `TimestampFormat`, or RFC 3339 when it is empty
(json_formatter.go:42-45, `Layout`). It then never uses that layout: the
`time` value is always rendered with the RFC 3339 layout
(json_formatter.go:47). The model follows line 47.
`TimestampFormatIgnored` proves that the configured format has no effect on
the composed map, and `ConfiguredLayoutNotUsed` that `time` is not the
configured layout's rendering whenever the two renderings differ.

A float64 field value is modelled by the real number it stands for
(`Float(x)`), so equal floats from different latency units are equal values.

A Go map is a reference and a Dafny `map` is a value. So the model states
"the receiver's map is not modified" as a frame: the derivation methods
modify nothing, and they say `unchanged(this, entry)`. It states "a freshly
allocated map" as `fresh(l) && fresh(l.entry)`.

## Model

| member | source | states |
|---|---|---|
| `FieldLogger.LevelOrder` | logger.go:30-41 | Error, Warn, Info and Debug are 2, 3, 4 and 5 (iota + 2), strictly increasing with verbosity |
| `FieldLogger.Merge` | logger.go:66-73 | the merged key set is exactly the union of both key sets; a key in the new fields gets the new value, any other key keeps the receiver's value |
| `FieldLogger.MergeFields` | logger.go:66-73 | the two copy loops, receiver first and then the new fields, build exactly the right-biased merge |
| `FieldLogger.MergeSingleton` | logger.go:58-62 | merging the one-entry map {k: v} maps k to v and keeps every other receiver key and value |
| `FieldLogger.MergeChain` | logger.go:65-83 | deriving with A and then with B gives the same fields as deriving once with A merged with B, B winning |
| `FieldLogger.TruncDiv` | logger.go:95-98 | the Microseconds/Milliseconds division rounds toward zero for negative durations too |
| `FieldLogger.TowardZeroUnique` | logger.go:95-98 | only one quotient rounds toward zero, so the truncated count is determined |
| `FieldLogger.LatencyValue` | logger.go:90-107 | Nanosecond and every unrecognised unit give the raw nanosecond count; Microsecond and Millisecond give the count divided by 1000 and 1000000, truncated toward zero; Second, Minute and Hour give the value that multiplied by the unit is the duration |
| `FieldLogger.UnknownUnitIsNanoseconds` | logger.go:92-107 | an unrecognised unit gives the same value as the Nanosecond unit |
| `FieldLogger.WholeMilliseconds` | logger.go:97-98 | n whole milliseconds in the Millisecond unit give n, the same value as n nanoseconds in the Nanosecond unit: truncation loses nothing |
| `FieldLogger.WholeSeconds` | logger.go:99-100 | n whole seconds in the Second unit give n, the same value as n nanoseconds in the Nanosecond unit |
| `FieldLogger.Logger.WithFields` | logger.go:65-83 | a fresh handle on a fresh entry whose fields are the merge; same engine, time and context; message, level and buffer are zero values; the receiver and its entry are unchanged |
| `FieldLogger.Logger.WithField` | logger.go:58-62 | the new fields are the receiver's with k set to v; engine, time and context are shared; message, level and buffer are zero values, as WithFields gives; the receiver is unchanged |
| `FieldLogger.Logger.WithLatency` | logger.go:90-110 | the new fields are the receiver's with exactly `latency` added or overwritten by the unit-converted value; engine, time and context are shared; message, level and buffer are zero values; the receiver is unchanged |
| `FieldLogger.New` | logger.go:15-18 | a handle on a fresh entry bound to a fresh engine, with no fields, zero time and no context |
| `JsonFormat.JSONLogger.Layout` | json_formatter.go:42-45 | the effective layout is the configured format when it is set and RFC 3339 when it is empty |
| `JsonFormat.JSONLogger.Composed` | json_formatter.go:37-50 | the keys are the caller keys plus `msg` and `level`, plus `time` unless disabled; `msg` is the message and `level` the level name, whatever the caller supplied; `time` is the entry time in the RFC 3339 layout when enabled; a caller `time` survives when disabled; every other caller field keeps its value |
| `JsonFormat.JSONLogger.Encoder` | json_formatter.go:59-63 | HTML escaping is on unless disabled; a two-space indent with an empty prefix when pretty-printing, compact otherwise |
| `JsonFormat.JSONLogger.ComposeData` | json_formatter.go:37-50 | the copy loop and the three reserved-key writes build exactly the composed map |
| `JsonFormat.JSONLogger.Format` | json_formatter.go:36-69 | the entry, and so its fields, is unchanged; on an encoder failure the result is an error whose message is the fixed prefix, a comma and the cause, and the buffer is untouched; otherwise the encoded bytes are appended to the entry's buffer, or to a new one, and the whole buffer is returned |
| `JsonFormat.TimestampFormatIgnored` | json_formatter.go:42-47 | changing the configured TimestampFormat does not change the composed map |
| `JsonFormat.ConfiguredLayoutNotUsed` | json_formatter.go:42-47 | with timestamps on, `time` is not the configured layout's rendering whenever that differs from the RFC 3339 rendering |

## Left out

- LatencyValue: the float branches (logger.go:99-104) give the exact real quotient of the duration by the unit. The float64 rounding of `Duration.Seconds`, `Minutes` and `Hours` is not modelled.
- LatencyValue: the `float64` conversions of the integral branches (logger.go:94-98, 106) give the integer as an exact real. The rounding of counts above 2^53 is not modelled.
- The logrus delegation at logger.go:20-28, 43-51 and 112-165 is not modelled. This covers `AddHook`, `SetFormatter`, `SetLevel`, `ParseLevel`, `SetOutput`, `Log`, `Logf` and the severity methods. They only call into the dispatch engine, which is not part of this model and has I/O effects. The nested-argument behaviour of `Log` and `Logf` (logger.go:119, 144) is part of that delegation.
- exported.go is not part of this model. It is a package-level default `Logger` with one-line delegations.
- JSON text generation, HTML escaping and indentation are left to the `encode` parameter. So are the trailing newline and the precise error causes. The model fixes only the settings passed to the encoder. It assumes, as `json.Encoder` behaves, that nothing is written to the buffer when encoding fails.
- Timestamp rendering (`time.Time.Format`) and level names (`Level.String`) are the parameters `formatTime` and `levelName`. No level name is fixed by the model.
- A zero `Logger{}` with a nil entry is not modelled. The Go code would dereference nil on every derivation, and in the model a `Logger` always holds an entry.
- Concurrency, sink writes and their ordering are not modelled. They belong to the dispatch engine.
