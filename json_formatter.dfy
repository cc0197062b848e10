/**
 * The JSON renderer: composes an entry's fields with the reserved keys
 * `time`, `msg` and `level`, then hands the map to a JSON encoder that
 * writes into the entry's buffer or a new one.
 */
module JsonFormat {
  import opened Logrus

  /** Go's time.RFC3339 layout (RFC 3339, section 5.6). */
  const RFC3339 := "2006-01-02T15:04:05Z07:00"
  const DefaultTimestampFormat := RFC3339

  const FieldKeyMsg := "msg"
  const FieldKeyLevel := "level"
  const FieldKeyTime := "time"

  /** The fixed text in front of every encoder failure's message. */
  const MarshalErrorPrefix := "failed to marshal fields to JSON"

  /** The settings of a json.Encoder: HTML escaping, SetIndent's prefix and indent. */
  datatype EncoderConfig = EncoderConfig(escapeHTML: bool, prefix: string, indent: string)

  /** The renderer's configuration; Format never changes it. */
  datatype JSONLogger = JSONLogger(
    timestampFormat: string,
    disableTimestamp: bool,
    disableHTMLEscape: bool,
    prettyPrint: bool)
  {
    /** The layout Format works out from the configuration: the configured one, or RFC 3339 when it is empty. */
    function Layout(): (r: string)
      ensures r != ""
      ensures timestampFormat != "" ==> r == timestampFormat
      ensures timestampFormat == "" ==> r == DefaultTimestampFormat
    {
      if timestampFormat == "" then DefaultTimestampFormat else timestampFormat
    }

    /**
     * The map Format encodes: the caller's fields, then `time` rendered in
     * the RFC 3339 layout unless timestamps are disabled, then `msg` and
     * `level`, which always win.
     */
    function Composed(data: Fields, t: Time, message: string, level: Level,
                      formatTime: (Time, string) -> string, levelName: Level -> string): (r: Fields)
      ensures r.Keys == data.Keys + {FieldKeyMsg, FieldKeyLevel} + (if disableTimestamp then {} else {FieldKeyTime})
      ensures r[FieldKeyMsg] == Str(message)
      ensures r[FieldKeyLevel] == Str(levelName(level))
      ensures !disableTimestamp ==> r[FieldKeyTime] == Str(formatTime(t, RFC3339))
      ensures disableTimestamp && FieldKeyTime in data ==> r[FieldKeyTime] == data[FieldKeyTime]
      ensures forall k :: k in data && k != FieldKeyTime && k != FieldKeyMsg && k != FieldKeyLevel ==> r[k] == data[k]
    {
      var stamped := if disableTimestamp then data else data[FieldKeyTime := Str(formatTime(t, RFC3339))];
      stamped[FieldKeyMsg := Str(message)][FieldKeyLevel := Str(levelName(level))]
    }

    /** The encoder settings Format uses: escaping unless disabled, two-space indent when pretty-printing. */
    function Encoder(): (c: EncoderConfig)
      ensures c.escapeHTML <==> !disableHTMLEscape
      ensures c.prefix == ""
      ensures c.indent == (if prettyPrint then "  " else "")
    {
      EncoderConfig(!disableHTMLEscape, "", if prettyPrint then "  " else "")
    }

    /** The composition part of Format: a copy loop over the caller's fields, then the reserved keys. */
    method ComposeData(data: Fields, t: Time, message: string, level: Level,
                       formatTime: (Time, string) -> string, levelName: Level -> string) returns (out: Fields)
      ensures out == Composed(data, t, message, level, formatTime, levelName)
    {
      out := map[];
      var todo := data.Keys;
      while todo != {}
        invariant todo <= data.Keys
        invariant out.Keys == data.Keys - todo
        invariant forall k :: k in out ==> out[k] == data[k]
        decreases todo
      {
        var k :| k in todo;
        out := out[k := data[k]];
        todo := todo - {k};
      }
      if !disableTimestamp {
        out := out[FieldKeyTime := Str(formatTime(t, RFC3339))];
      }
      out := out[FieldKeyMsg := Str(message)];
      out := out[FieldKeyLevel := Str(levelName(level))];
    }

    /**
     * Renders one entry. The entry is not changed. On an encoder failure
     * the result is an error with the fixed prefix and no buffer changes;
     * otherwise the encoded bytes are appended to the entry's buffer (or a
     * new one) and the whole buffer is returned.
     */
    method Format(entry: Entry, formatTime: (Time, string) -> string, levelName: Level -> string,
                  encode: (Fields, EncoderConfig) -> Result<seq<byte>>) returns (r: Result<seq<byte>>)
      modifies if entry.buffer == null then {} else {entry.buffer}
      ensures unchanged(entry)
      ensures r.Err? ==> MarshalErrorPrefix <= r.msg
      ensures var enc := encode(Composed(entry.data, entry.time, entry.message, entry.level, formatTime, levelName), Encoder());
        if enc.Err? then
          r == Err(MarshalErrorPrefix + ", " + enc.msg) && (entry.buffer != null ==> unchanged(entry.buffer))
        else if entry.buffer == null then
          r == Ok(enc.value)
        else
          r == Ok(old(entry.buffer.bytes) + enc.value) && entry.buffer.bytes == r.value
    {
      var data := ComposeData(entry.data, entry.time, entry.message, entry.level, formatTime, levelName);
      var b: Buffer;
      if entry.buffer != null {
        b := entry.buffer;
      } else {
        b := new Buffer();
      }
      var enc := encode(data, Encoder());
      if enc.Err? {
        return Err(MarshalErrorPrefix + ", " + enc.msg);
      }
      assert b.bytes == [] ==> b.bytes + enc.value == enc.value;
      b.bytes := b.bytes + enc.value;
      return Ok(b.bytes);
    }
  }

  /** The configured TimestampFormat has no effect on the composed map: `time` always uses RFC 3339. */
  lemma TimestampFormatIgnored(j: JSONLogger, layout: string, data: Fields, t: Time, message: string, level: Level,
                               formatTime: (Time, string) -> string, levelName: Level -> string)
    ensures j.(timestampFormat := layout).Composed(data, t, message, level, formatTime, levelName)
         == j.Composed(data, t, message, level, formatTime, levelName)
  {
  }

  /**
   * With timestamps on, `time` is not the configured layout's rendering
   * whenever that differs from the RFC 3339 one.
   */
  lemma ConfiguredLayoutNotUsed(j: JSONLogger, data: Fields, t: Time, message: string, level: Level,
                                formatTime: (Time, string) -> string, levelName: Level -> string)
    requires !j.disableTimestamp
    requires formatTime(t, j.Layout()) != formatTime(t, RFC3339)
    ensures j.Composed(data, t, message, level, formatTime, levelName)[FieldKeyTime] != Str(formatTime(t, j.Layout()))
  {
  }
}
