/**
 * golog's providers: one per output destination. Each builds a zap core in
 * newCore and may release a resource in close. The cloud and file providers
 * keep a handle (the Cloud Logging client, the lumberjack logger) that is
 * absent until newCore stores it.
 */
module Providers {
  import opened Wrappers
  import opened Errors
  import opened Levels
  import opened Encoders
  import opened GcpCore

  /** The kind of a provider and the configuration it was registered with. */
  datatype Kind =
    | StdOut(encoderType: EncoderType)
    | Writer(writer: nat, encoderType: EncoderType)   // writer identifies the io.Writer
    | Gcp(projectID: string, logName: string)
    | File(filename: string, maxSize: int, maxBackups: int, maxAge: int, compress: bool)
    | Custom                                          // a provider the caller built itself

  /**
   * The answers of the code a provider calls but which is not modelled:
   * for Gcp, the errors of logging.NewClient and of Client.Close; for File,
   * the error of the lumberjack logger's Close (init is not consulted); for
   * Custom, the errors its own newCore and close return. StdOut and Writer
   * consult neither.
   */
  datatype External = External(init: Option<Error>, close: Option<Error>)

  /** Where a zap core writes. */
  datatype Sink = Stdout | WriterSink(writer: nat) | RotatingFile(filename: string) | Elsewhere

  /** The zap core newCore returns. */
  datatype Core =
    | IoCore(encoder: Encoder, sink: Sink, level: ZapLevel)
    | Cloud(cloud: CloudCore)
    | CustomCore(level: ZapLevel)
  {
    /** The threshold the core filters records by. */
    function Level(): ZapLevel
    {
      match this
      case IoCore(_, _, lvl) => lvl
      case Cloud(c) => c.level
      case CustomCore(lvl) => lvl
    }
  }

  const NonNegativeMessage: string := "fileProvider: rotation parameters must be non\U{2011}negative"
  const ClientCreateContext: string := "gcpProvider: failed to create client"
  const ClientCloseContext: string := "gcpProvider: error closing client"

  class Provider {
    const kind: Kind
    const ext: External
    /** The stored lumberjackLogger (File) or client (Gcp) is non-nil. */
    var handle: bool
    /** How many times close() was called. */
    var closeCalls: nat
    /** How many times close() released something: a stored handle, or a custom provider's own close. */
    var releases: nat

    constructor (kind: Kind, ext: External)
      ensures this.kind == kind && this.ext == ext
      ensures !handle && closeCalls == 0 && releases == 0
    {
      this.kind := kind;
      this.ext := ext;
      handle := false;
      closeCalls := 0;
      releases := 0;
    }

    /** The kinds whose newCore stores a handle on the provider. */
    predicate StoresHandle()
    {
      kind.Gcp? || kind.File?
    }

    /** close() has something to release. */
    predicate HoldsResource()
      reads this`handle
    {
      (StoresHandle() && handle) || kind.Custom?
    }

    /**
     * The core a successful newCore returns at `level`: the encoder and sink of
     * the provider's kind, or a cloud core writing to the configured log.
     */
    predicate Produced(core: Core, level: ZapLevel)
    {
      match kind
      case StdOut(enc) => core == IoCore(BuildEncoder(enc).encoder, Stdout, level)
      case Writer(w, enc) => core == IoCore(BuildEncoder(enc).encoder, WriterSink(w), level)
      case Gcp(_, logName) =>
        core.Cloud? && core.cloud.logName == logName && core.cloud.level == level
      case File(filename, _, _, _, _) => core == IoCore(JSON, RotatingFile(filename), level)
      case Custom => core == CustomCore(level)
    }

    /**
     * The error newCore returns. A file provider fails exactly when a rotation
     * parameter is negative; stdout and writer providers fail exactly for an
     * unknown encoder name; a cloud provider fails exactly when the client
     * cannot be created, with that error wrapped.
     */
    function InitError(): (r: Option<Error>)
      ensures kind.File? ==> (r.Some? <==> kind.maxSize < 0 || kind.maxBackups < 0 || kind.maxAge < 0)
      ensures kind.File? && r.Some? ==> Message(r.value) == NonNegativeMessage
      ensures (kind.StdOut? || kind.Writer?) ==>
        (r.None? <==> kind.encoderType == JSONEncoder || kind.encoderType == ConsoleEncoder)
      ensures kind.Gcp? ==> (r.Some? <==> ext.init.Some?)
      ensures kind.Gcp? && r.Some? ==> r.value == Wrapped(ClientCreateContext, ext.init.value)
      ensures kind.Custom? ==> r == ext.init
    {
      match kind
      case StdOut(enc) => BuildEncoder(enc).err
      case Writer(_, enc) => BuildEncoder(enc).err
      case Gcp(_, _) =>
        if ext.init.Some? then Some(Wrapped(ClientCreateContext, ext.init.value)) else None
      case File(_, maxSize, maxBackups, maxAge, _) =>
        if maxSize < 0 || maxBackups < 0 || maxAge < 0 then Some(Failure(NonNegativeMessage))
        else BuildEncoder(JSONEncoder).err
      case Custom => ext.init
    }

    /**
     * The error close() returns: nil whenever there is nothing to release; a
     * cloud provider wraps the client's error, a file provider passes the
     * lumberjack logger's error through.
     */
    function CloseError(): (r: Option<Error>)
      reads this`handle
      ensures !HoldsResource() ==> r == None
      ensures kind.StdOut? || kind.Writer? ==> r == None
      ensures kind.Gcp? ==> (r.Some? <==> handle && ext.close.Some?)
      ensures kind.Gcp? && r.Some? ==> r.value == Wrapped(ClientCloseContext, ext.close.value)
      ensures kind.File? || kind.Custom? ==> r == (if HoldsResource() then ext.close else None)
    {
      match kind
      case Gcp(_, _) =>
        if handle && ext.close.Some? then Some(Wrapped(ClientCloseContext, ext.close.value)) else None
      case File(_, _, _, _, _) => if handle then ext.close else None
      case Custom => ext.close
      case _ => None
    }

    /**
     * newCore: returns a core at the given level or the error InitError; only
     * a successful cloud or file provider stores its handle, and nothing is
     * closed.
     */
    method NewCore(level: ZapLevel) returns (core: Option<Core>, err: Option<Error>)
      modifies this
      ensures err == InitError()
      ensures core.Some? <==> err.None?
      ensures core.Some? && kind.Gcp? ==>
        core.value.Cloud? && fresh(core.value.cloud) &&
        core.value.cloud.logName == kind.logName && core.value.cloud.level == level &&
        core.value.cloud.fields == map[]
      ensures core.Some? && kind.File? ==> core.value == IoCore(JSON, RotatingFile(kind.filename), level)
      ensures core.Some? && kind.StdOut? ==> core.value == IoCore(BuildEncoder(kind.encoderType).encoder, Stdout, level)
      ensures core.Some? && kind.Writer? ==>
        core.value == IoCore(BuildEncoder(kind.encoderType).encoder, WriterSink(kind.writer), level)
      ensures core.Some? && kind.Custom? ==> core.value == CustomCore(level)
      ensures core.Some? ==> Produced(core.value, level) && core.value.Level() == level
      ensures handle == (old(handle) || (StoresHandle() && err.None?))
      ensures closeCalls == old(closeCalls) && releases == old(releases)
    {
      match kind {
        case StdOut(enc) =>
          var built := BuildEncoder(enc);
          if built.err.Some? {
            return None, built.err;
          }
          return Some(IoCore(built.encoder, Stdout, level)), None;
        case Writer(w, enc) =>
          var built := BuildEncoder(enc);
          if built.err.Some? {
            return None, built.err;
          }
          return Some(IoCore(built.encoder, WriterSink(w), level)), None;
        case Gcp(_, logName) =>
          if ext.init.Some? {
            return None, Some(Wrapped(ClientCreateContext, ext.init.value));
          }
          handle := true;
          var cloud := new CloudCore(logName, level, map[]);
          return Some(Cloud(cloud)), None;
        case File(filename, maxSize, maxBackups, maxAge, _) =>
          if maxSize < 0 || maxBackups < 0 || maxAge < 0 {
            return None, Some(Failure(NonNegativeMessage));
          }
          var built := BuildEncoder(JSONEncoder);
          if built.err.Some? {
            return None, built.err;
          }
          handle := true;
          return Some(IoCore(built.encoder, RotatingFile(filename), level)), None;
        case Custom =>
          if ext.init.Some? {
            return None, ext.init;
          }
          return Some(CustomCore(level)), None;
      }
    }

    /**
     * close(): returns CloseError; releases what the provider holds and is a
     * no-op returning nil when there is nothing to release. The handle stays
     * stored (it is not reset to nil).
     */
    method Close() returns (err: Option<Error>)
      modifies this
      ensures err == old(CloseError())
      ensures handle == old(handle)
      ensures closeCalls == old(closeCalls) + 1
      ensures releases == old(releases) + (if old(HoldsResource()) then 1 else 0)
    {
      closeCalls := closeCalls + 1;
      match kind {
        case Gcp(_, _) =>
          if handle {
            releases := releases + 1;
            if ext.close.Some? {
              return Some(Wrapped(ClientCloseContext, ext.close.value));
            }
          }
          return None;
        case File(_, _, _, _, _) =>
          if handle {
            releases := releases + 1;
            return ext.close;
          }
          return None;
        case Custom =>
          releases := releases + 1;
          return ext.close;
        case _ =>
          return None;
      }
    }
  }
}
