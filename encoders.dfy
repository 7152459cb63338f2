/** buildEncoder: an encoder kind chosen by name, with a JSON fallback for unknown names. */
module Encoders {
  import opened Wrappers
  import opened Errors

  /** golog's `type EncoderType string`. */
  type EncoderType = string

  const JSONEncoder: EncoderType := "json"
  const ConsoleEncoder: EncoderType := "console"

  /** The zap encoder that is built; its byte layout belongs to zap and is not modelled. */
  datatype Encoder = JSON | Console

  datatype Built = Built(encoder: Encoder, err: Option<Error>)

  const UnsupportedPrefix: string := "unsupported encoder type"

  /** Go's %q, without the escaping of special characters. */
  function Quote(s: string): string
  {
    "\"" + s + "\""
  }

  /**
   * buildEncoder: "console" and "json" build their encoder with no error; any
   * other name still yields a JSON encoder, together with an error naming it.
   */
  function BuildEncoder(t: EncoderType): (r: Built)
    ensures r.err.None? <==> t == JSONEncoder || t == ConsoleEncoder
    ensures r.encoder == Console <==> t == ConsoleEncoder
    ensures r.err.Some? ==> r.err.value.Failure? && UnsupportedPrefix <= Message(r.err.value)
  {
    if t == ConsoleEncoder then Built(Console, None)
    else if t == JSONEncoder then Built(JSON, None)
    else Built(JSON, Some(Failure(UnsupportedPrefix + " " + Quote(t) + ", falling back to JSON")))
  }
}
