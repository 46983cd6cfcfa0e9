/** hclog's severity levels. The plugin framework and the host's hclog-facing wrappers use these;
    `OtherLevel` stands for any value of the underlying integer that names no level. */
module Hclog {

  /** hclog numbers its levels NoLevel = 0 up to Off = 6; any other value of the underlying
      integer names no level. */
  type OtherCode = c: int | c < 0 || 6 < c witness -1

  datatype Level = NoLevel | Trace | Debug | Info | Warn | Error | Off | OtherLevel(code: OtherCode)

  /** The options a logger is built from; the output writer is not part of this model. */
  datatype LoggerOptions = LoggerOptions(name: string, level: Level)

  /** An hclog logger, whose own behaviour is not part of this model. */
  class Logger {
  }

  /** The five levels that name a severity. */
  predicate IsNamed(l: Level) {
    l.Trace? || l.Debug? || l.Info? || l.Warn? || l.Error?
  }

  /** Verbosity order of the named levels, most verbose first. */
  function Rank(l: Level): nat
    requires IsNamed(l)
  {
    match l
    case Trace => 0
    case Debug => 1
    case Info => 2
    case Warn => 3
    case Error => 4
  }

  /** The lower-case name hclog prints for a named level. */
  function Name(l: Level): string
    requires IsNamed(l)
  {
    match l
    case Trace => "trace"
    case Debug => "debug"
    case Info => "info"
    case Warn => "warn"
    case Error => "error"
  }
}

/** zerolog's severity levels, the host's own structured logger. `OtherLevel` stands for any value
    of the underlying integer that names no level. */
module Zerolog {

  /** zerolog numbers its levels TraceLevel = -1 up to Disabled = 7; any other value of the
      underlying integer names no level. */
  type OtherCode = c: int | c < -1 || 7 < c witness -2

  datatype Level =
    | TraceLevel | DebugLevel | InfoLevel | WarnLevel | ErrorLevel | FatalLevel | PanicLevel
    | NoLevel | Disabled | OtherLevel(code: OtherCode)

  /** The levels that order messages by importance (all but NoLevel, Disabled and unnamed values). */
  predicate IsOrdered(l: Level) {
    l.TraceLevel? || l.DebugLevel? || l.InfoLevel? || l.WarnLevel? || l.ErrorLevel?
    || l.FatalLevel? || l.PanicLevel?
  }

  /** Importance order of the ordered levels, least important first. */
  function Rank(l: Level): nat
    requires IsOrdered(l)
  {
    match l
    case TraceLevel => 0
    case DebugLevel => 1
    case InfoLevel => 2
    case WarnLevel => 3
    case ErrorLevel => 4
    case FatalLevel => 5
    case PanicLevel => 6
  }

  /** The lower-case name zerolog prints for an ordered level. */
  function Name(l: Level): string
    requires IsOrdered(l)
  {
    match l
    case TraceLevel => "trace"
    case DebugLevel => "debug"
    case InfoLevel => "info"
    case WarnLevel => "warn"
    case ErrorLevel => "error"
    case FatalLevel => "fatal"
    case PanicLevel => "panic"
  }
}
