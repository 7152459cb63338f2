/**
 * golog's Level enumeration, its translation to zap's levels (toZapLevel), the
 * threshold test of a zap core (Enabled) and the translation of zap levels to
 * Cloud Logging severities (levelToSeverity).
 */
module Levels {

  /** golog's `type Level int`: any int, of which 0..4 are named. */
  type Level = int

  const DebugLevel: Level := 0
  const InfoLevel: Level := 1
  const WarnLevel: Level := 2
  const ErrorLevel: Level := 3
  const FatalLevel: Level := 4

  predicate IsNamed(l: Level)
  {
    DebugLevel <= l <= FatalLevel
  }

  /** zapcore.Level is an int8. */
  newtype ZapLevel = x: int | -128 <= x < 128

  const ZapDebug: ZapLevel := -1
  const ZapInfo: ZapLevel := 0
  const ZapWarn: ZapLevel := 1
  const ZapError: ZapLevel := 2
  const ZapDPanic: ZapLevel := 3
  const ZapPanic: ZapLevel := 4
  const ZapFatal: ZapLevel := 5

  /**
   * toZapLevel. Total: Debug..Error land on zap's Debug..Error (one below in
   * numbering), Fatal on zap's Fatal, and any unnamed value on zap's Info.
   */
  function ToZapLevel(l: Level): (r: ZapLevel)
    ensures DebugLevel <= l <= ErrorLevel ==> r as int == l - 1
    ensures l == FatalLevel ==> r == ZapFatal
    ensures !IsNamed(l) ==> r == ZapInfo
  {
    if l == DebugLevel then ZapDebug
    else if l == InfoLevel then ZapInfo
    else if l == WarnLevel then ZapWarn
    else if l == ErrorLevel then ZapError
    else if l == FatalLevel then ZapFatal
    else ZapInfo
  }

  /** The translation never produces zap's DPanic or Panic, and stays within Debug..Fatal. */
  lemma ToZapLevelRange(l: Level)
    ensures ZapDebug <= ToZapLevel(l) <= ZapFatal
    ensures ToZapLevel(l) != ZapDPanic && ToZapLevel(l) != ZapPanic
  {
  }

  /** On the named levels the translation preserves and reflects the order. */
  lemma ToZapLevelOrder(a: Level, b: Level)
    requires IsNamed(a) && IsNamed(b)
    ensures ToZapLevel(a) <= ToZapLevel(b) <==> a <= b
    ensures ToZapLevel(a) == ToZapLevel(b) <==> a == b
  {
  }

  /** gcpZapCore.Enabled: a core with threshold `threshold` accepts `lvl` iff lvl >= threshold. */
  predicate Enabled(threshold: ZapLevel, lvl: ZapLevel)
  {
    lvl >= threshold
  }

  /**
   * A logger configured at golog level `t` accepts a record at golog level `l`
   * iff l >= t, for named levels; an unnamed level behaves as Info on either side.
   */
  lemma ThresholdFilter(t: Level, l: Level)
    ensures IsNamed(t) && IsNamed(l) ==> (Enabled(ToZapLevel(t), ToZapLevel(l)) <==> l >= t)
    ensures !IsNamed(t) ==> Enabled(ToZapLevel(t), ToZapLevel(l)) == Enabled(ToZapLevel(InfoLevel), ToZapLevel(l))
    ensures !IsNamed(l) ==> Enabled(ToZapLevel(t), ToZapLevel(l)) == Enabled(ToZapLevel(t), ToZapLevel(InfoLevel))
  {
    if IsNamed(t) && IsNamed(l) {
      ToZapLevelOrder(t, l);
    }
  }

  /** Enabled is upward closed: a core that accepts a level accepts every higher one. */
  lemma EnabledUpwardClosed(threshold: ZapLevel, a: ZapLevel, b: ZapLevel)
    requires Enabled(threshold, a) && a <= b
    ensures Enabled(threshold, b)
  {
  }

  /** logging.Severity of the Cloud Logging client. */
  datatype Severity = Default | Debug | Info | Notice | Warning | Error | Critical | Alert | Emergency
  {
    /** The numeric value the client library gives each severity. */
    function Code(): int
    {
      match this
      case Default => 0
      case Debug => 100
      case Info => 200
      case Notice => 300
      case Warning => 400
      case Error => 500
      case Critical => 600
      case Alert => 700
      case Emergency => 800
    }
  }

  /**
   * levelToSeverity: total; each of zap's seven levels gets a severity of its
   * own, and Default is reserved for values outside zap's levels.
   */
  function LevelToSeverity(lvl: ZapLevel): (r: Severity)
    ensures r == Default <==> !(ZapDebug <= lvl <= ZapFatal)
    ensures r != Notice
  {
    match lvl
    case -1 => Debug
    case 0 => Info
    case 1 => Warning
    case 2 => Error
    case 3 => Critical
    case 4 => Alert
    case 5 => Emergency
    case _ => Default
  }

  /** On zap's levels the severity strictly increases with the level. */
  lemma LevelToSeverityMonotone(a: ZapLevel, b: ZapLevel)
    requires ZapDebug <= a < b <= ZapFatal
    ensures LevelToSeverity(a).Code() < LevelToSeverity(b).Code()
  {
  }

  /** The table for golog's five named levels, through toZapLevel. */
  lemma SeverityOfNamedLevels()
    ensures LevelToSeverity(ToZapLevel(DebugLevel)) == Debug
    ensures LevelToSeverity(ToZapLevel(InfoLevel)) == Info
    ensures LevelToSeverity(ToZapLevel(WarnLevel)) == Warning
    ensures LevelToSeverity(ToZapLevel(ErrorLevel)) == Error
    ensures LevelToSeverity(ToZapLevel(FatalLevel)) == Emergency
  {
  }
}
