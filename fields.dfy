/**
 * golog's Field (a key and a dynamically typed value), its constructors and
 * toZapFields, which dispatches on the value's dynamic type to a zap field.
 */
module Fields {
  import opened Wrappers
  import opened Errors

  /** Go's int and int64 (64-bit). */
  newtype int64 = x: int | -0x8000_0000_0000_0000 <= x < 0x8000_0000_0000_0000

  /** The dynamic type, and value, held in Field.Value (an interface{}). */
  datatype Value =
    | StringValue(s: string)
    | IntValue(i: int64)
    | Float64Value(bits: bv64)        // IEEE-754 bits; no arithmetic is modelled
    | ErrorValue(err: Error)
    | DurationValue(nanos: int64)     // time.Duration
    | NilValue                        // a nil interface
    | OtherValue(repr: string)        // any other dynamic type, kept as opaque text

  datatype Field = Field(key: string, value: Value)

  const ErrorKey: string := "error"

  function String(key: string, value: string): Field
  {
    Field(key, StringValue(value))
  }

  function Int(key: string, value: int64): Field
  {
    Field(key, IntValue(value))
  }

  function Float64(key: string, bits: bv64): Field
  {
    Field(key, Float64Value(bits))
  }

  /** Err: the key is always "error"; a nil error leaves a nil interface as the value. */
  function Err(err: Option<Error>): Field
  {
    Field(ErrorKey, if err.Some? then ErrorValue(err.value) else NilValue)
  }

  function Duration(key: string, nanos: int64): Field
  {
    Field(key, DurationValue(nanos))
  }

  function Any(key: string, value: Value): Field
  {
    Field(key, value)
  }

  /** The zap field chosen by the type switch of toZapFields. */
  datatype ZapField =
    | ZString(key: string, s: string)
    | ZInt(key: string, i: int64)
    | ZFloat64(key: string, bits: bv64)
    | ZError(err: Error)                  // zap.Error: always named "error"
    | ZDuration(key: string, nanos: int64)
    | ZAny(key: string, v: Value)         // zap.Any: reflective encoding
  {
    /** The key the field is encoded under. */
    function Key(): string
    {
      if ZError? then ErrorKey else key
    }

    /** The value the field carries. */
    function Carried(): Value
    {
      match this
      case ZString(_, s) => StringValue(s)
      case ZInt(_, i) => IntValue(i)
      case ZFloat64(_, bits) => Float64Value(bits)
      case ZError(err) => ErrorValue(err)
      case ZDuration(_, nanos) => DurationValue(nanos)
      case ZAny(_, v) => v
    }
  }

  /**
   * One case of toZapFields' type switch: the value is carried over unchanged,
   * the key is kept except that an error value is always named "error", and
   * only a nil or unrecognised value falls through to zap.Any.
   */
  function ToZapField(f: Field): (z: ZapField)
    ensures z.Key() == (if f.value.ErrorValue? then ErrorKey else f.key)
    ensures z.Carried() == f.value
    ensures z.ZAny? <==> f.value.NilValue? || f.value.OtherValue?
  {
    match f.value
    case StringValue(s) => ZString(f.key, s)
    case IntValue(i) => ZInt(f.key, i)
    case Float64Value(bits) => ZFloat64(f.key, bits)
    case ErrorValue(err) => ZError(err)
    case DurationValue(nanos) => ZDuration(f.key, nanos)
    case _ => ZAny(f.key, f.value)
  }

  /**
   * toZapFields: fills a slice of the same length, position by position, so
   * order and length are preserved and each position is converted on its own.
   */
  method ToZapFields(fields: seq<Field>) returns (zs: seq<ZapField>)
    ensures |zs| == |fields|
    ensures forall i :: 0 <= i < |fields| ==> zs[i] == ToZapField(fields[i])
    ensures forall i :: 0 <= i < |fields| ==>
      zs[i].Carried() == fields[i].value &&
      zs[i].Key() == (if fields[i].value.ErrorValue? then ErrorKey else fields[i].key)
  {
    var a := new ZapField[|fields|];
    for i := 0 to |fields|
      invariant forall j :: 0 <= j < i ==> a[j] == ToZapField(fields[j])
    {
      a[i] := ToZapField(fields[i]);
    }
    zs := a[..];
  }

  /** What each constructor turns into under toZapFields. */
  lemma ConstructorsDispatch(key: string, s: string, i: int64, bits: bv64, e: Error, nanos: int64, v: Value)
    ensures ToZapField(String(key, s)) == ZString(key, s)
    ensures ToZapField(Int(key, i)) == ZInt(key, i)
    ensures ToZapField(Float64(key, bits)) == ZFloat64(key, bits)
    ensures ToZapField(Err(Some(e))) == ZError(e)
    ensures ToZapField(Err(None)) == ZAny(ErrorKey, NilValue)
    ensures ToZapField(Duration(key, nanos)) == ZDuration(key, nanos)
    ensures ToZapField(Any(key, v)) == ToZapField(Field(key, v))
    ensures ToZapField(Any(key, ErrorValue(e))).Key() == ErrorKey
  {
  }
}
