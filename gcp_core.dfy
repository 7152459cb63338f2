/**
 * gcpZapCore: the zap core behind the Cloud Logging destination. It keeps a
 * threshold and a map of fields bound by With, and Write turns each entry into
 * a flat payload map handed to the Cloud Logging client.
 */
module GcpCore {
  import opened Errors
  import opened Levels
  import opened Fields

  /** zapcore.EntryCaller. */
  datatype Caller = Caller(defined: bool, file: string, line: int64, func: string)

  /** zapcore.Entry, reduced to what Write reads; the time is an abstract timestamp. */
  datatype Entry = Entry(level: ZapLevel, time: int, message: string, caller: Caller)

  /** The logging.Entry handed to the client's Log. */
  datatype LogEntry = LogEntry(timestamp: int, severity: Severity, payload: map<string, Value>)

  const MessageKey: string := "message"
  const SourceFileKey: string := "source_file"
  const SourceLineKey: string := "source_line"
  const SourceFunctionKey: string := "source_function"

  /**
   * The value a zap field leaves in a MapObjectEncoder: an error leaves its
   * message text, every other field the value it carries.
   */
  function Encode(z: ZapField): Value
  {
    if z.ZError? then StringValue(Message(z.err)) else z.Carried()
  }

  /** The fields of a MapObjectEncoder after AddTo of each field in turn: a later key overwrites an earlier one. */
  function EncodeFields(fs: seq<ZapField>): map<string, Value>
  {
    if fs == [] then map[]
    else
      var last := fs[|fs| - 1];
      EncodeFields(fs[..|fs| - 1])[last.Key() := Encode(last)]
  }

  /**
   * The payload Write builds: the core's fields, overridden by the call's
   * fields, then "message", then the three source keys when caller
   * information is defined.
   */
  function Payload(core: map<string, Value>, ent: Entry, fs: seq<ZapField>): map<string, Value>
  {
    Stamp(core + EncodeFields(fs), ent)
  }

  /** The entry's message and, when known, its caller, laid over the fields. */
  function Stamp(fields: map<string, Value>, ent: Entry): map<string, Value>
  {
    var p := fields[MessageKey := StringValue(ent.message)];
    if ent.caller.defined then
      p[SourceFileKey := StringValue(ent.caller.file)]
       [SourceLineKey := IntValue(ent.caller.line)]
       [SourceFunctionKey := StringValue(ent.caller.func)]
    else p
  }

  /**
   * A key is encoded iff some field has it, and it then holds the value of the
   * LAST field with that key.
   */
  lemma {:induction false} EncodeFieldsLastWins(fs: seq<ZapField>, k: string, i: nat)
    requires i < |fs| && fs[i].Key() == k
    requires forall j :: i < j < |fs| ==> fs[j].Key() != k
    ensures k in EncodeFields(fs) && EncodeFields(fs)[k] == Encode(fs[i])
  {
    if i < |fs| - 1 {
      EncodeFieldsLastWins(fs[..|fs| - 1], k, i);
    }
  }

  /** Only keys of the given fields are encoded. */
  lemma {:induction false} EncodeFieldsKeys(fs: seq<ZapField>, k: string)
    ensures k in EncodeFields(fs) <==> exists i :: 0 <= i < |fs| && fs[i].Key() == k
  {
    if fs != [] {
      var init := fs[..|fs| - 1];
      EncodeFieldsKeys(init, k);
      if k in EncodeFields(init) {
        var i :| 0 <= i < |init| && init[i].Key() == k;
        assert fs[i].Key() == k;
      }
      if exists i :: 0 <= i < |fs| && fs[i].Key() == k {
        var i :| 0 <= i < |fs| && fs[i].Key() == k;
        if i < |init| {
          assert init[i].Key() == k;
        }
      }
    }
  }

  /** Encoding a concatenation is the merge of the two encodings, the second winning. */
  lemma {:induction false} EncodeFieldsAppend(a: seq<ZapField>, b: seq<ZapField>)
    ensures EncodeFields(a + b) == EncodeFields(a) + EncodeFields(b)
  {
    if b == [] {
      assert a + b == a;
    } else {
      var init := b[..|b| - 1];
      EncodeFieldsAppend(a, init);
      assert (a + b)[..|a + b| - 1] == a + init;
    }
  }

  /**
   * What a reader of the payload sees: "message" is the entry's message; with
   * caller information the source keys hold it; every other key comes from the
   * call's fields when they have it, else from the core's fields, and from
   * nowhere else.
   */
  lemma PayloadContents(core: map<string, Value>, ent: Entry, fs: seq<ZapField>, k: string)
    ensures Payload(core, ent, fs)[MessageKey] == StringValue(ent.message)
    ensures ent.caller.defined ==>
      Payload(core, ent, fs)[SourceFileKey] == StringValue(ent.caller.file) &&
      Payload(core, ent, fs)[SourceLineKey] == IntValue(ent.caller.line) &&
      Payload(core, ent, fs)[SourceFunctionKey] == StringValue(ent.caller.func)
    ensures k != MessageKey && (ent.caller.defined ==> k !in {SourceFileKey, SourceLineKey, SourceFunctionKey}) ==>
      (k in Payload(core, ent, fs) <==> k in core || k in EncodeFields(fs)) &&
      (k in EncodeFields(fs) ==> Payload(core, ent, fs)[k] == EncodeFields(fs)[k]) &&
      (k !in EncodeFields(fs) && k in core ==> Payload(core, ent, fs)[k] == core[k])
  {
  }

  /** Binding fields with With and then writing is writing with both field lists in order. */
  lemma WithThenWrite(core: map<string, Value>, bound: seq<ZapField>, ent: Entry, fs: seq<ZapField>)
    ensures Payload(core + EncodeFields(bound), ent, fs) == Payload(core, ent, bound + fs)
  {
    var b, f := EncodeFields(bound), EncodeFields(fs);
    var merged := core + EncodeFields(bound + fs);
    assert core + b + f == merged by {
      EncodeFieldsAppend(bound, fs);
      assert core + b + f == core + (b + f);
    }
    assert Payload(core + b, ent, fs) == Stamp(merged, ent);
  }

  /** `for k, v := range src { dst[k] = v }`, in the map's unspecified order. */
  method CopyInto<K, V>(dst: map<K, V>, src: map<K, V>) returns (r: map<K, V>)
    ensures r == dst + src
  {
    r := dst;
    var todo := src.Keys;
    while todo != {}
      invariant todo <= src.Keys
      invariant r.Keys == dst.Keys + (src.Keys - todo)
      invariant forall k :: k in r ==> r[k] == if k in src && k !in todo then src[k] else dst[k]
      decreases todo
    {
      var k :| k in todo;
      r := r[k := src[k]];
      todo := todo - {k};
    }
  }

  /** A MapObjectEncoder filled by AddTo of each field in order. */
  method EncodeAll(fs: seq<ZapField>) returns (enc: map<string, Value>)
    ensures enc == EncodeFields(fs)
  {
    enc := map[];
    for i := 0 to |fs|
      invariant enc == EncodeFields(fs[..i])
    {
      assert fs[..i + 1][..i] == fs[..i];
      enc := enc[fs[i].Key() := Encode(fs[i])];
    }
    assert fs[..|fs|] == fs;
  }

  class CloudCore {
    /** The name of the Cloud Logging log the entries go to (the *logging.Logger). */
    const logName: string
    const level: ZapLevel
    var fields: map<string, Value>

    constructor (logName: string, level: ZapLevel, fields: map<string, Value>)
      ensures this.logName == logName && this.level == level && this.fields == fields
    {
      this.logName := logName;
      this.level := level;
      this.fields := fields;
    }

    /** Enabled: the core's threshold test. */
    predicate Enabled(lvl: ZapLevel)
    {
      Levels.Enabled(level, lvl)
    }

    /**
     * With: a fresh clone whose field map is a copy of this one's merged with
     * the given fields; this core's own map is left as it was.
     */
    method With(fs: seq<ZapField>) returns (clone: CloudCore)
      ensures fresh(clone)
      ensures clone.logName == logName && clone.level == level
      ensures clone.fields == fields + EncodeFields(fs)
    {
      var copied := CopyInto(map[], fields);
      var enc := EncodeAll(fs);
      copied := CopyInto(copied, enc);
      clone := new CloudCore(logName, level, copied);
    }

    /**
     * Write: the entry handed to the client carries the entry's time, the
     * severity of its level and the payload built from this core's fields, the
     * call's fields, the message and the caller.
     */
    method Write(ent: Entry, fs: seq<ZapField>) returns (logged: LogEntry)
      ensures logged.timestamp == ent.time
      ensures logged.severity == LevelToSeverity(ent.level)
      ensures logged.payload == Payload(fields, ent, fs)
    {
      var payload := CopyInto(map[], fields);
      var enc := EncodeAll(fs);
      payload := CopyInto(payload, enc);
      payload := payload[MessageKey := StringValue(ent.message)];
      if ent.caller.defined {
        payload := payload[SourceFileKey := StringValue(ent.caller.file)];
        payload := payload[SourceLineKey := IntValue(ent.caller.line)];
        payload := payload[SourceFunctionKey := StringValue(ent.caller.func)];
      }
      logged := LogEntry(ent.time, LevelToSeverity(ent.level), payload);
    }
  }
}
