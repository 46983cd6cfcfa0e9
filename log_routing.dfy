/** What the host's hclog-facing wrappers do with a normalised line: drop one sentinel line, and
    otherwise emit one event to the zerolog sink at the severity named like the hclog level. Also
    the translation of the sink's zerolog level into the hclog level the plugin framework uses. */
module LogRouting {
  import opened GoTypes
  import Hclog
  import Zerolog

  /** The line go-plugin logs when the plugin's stream closes; the wrappers never forward it. */
  const IgnoredLogLine: string :=
    "received EOF, stopping recv loop: err=\"rpc error: code = Unavailable desc = error reading from server: EOF\""

  /** One message written to the zerolog sink. */
  datatype Event = Event(severity: Zerolog.Level, message: string)

  /** The zerolog logger the wrappers write to, seen as the sequence of events it has received. */
  class EventSink {
    ghost var events: seq<Event>

    constructor ()
      ensures events == []
    {
      events := [];
    }

    /** `lg.<Severity>().Msg(message)`. */
    method Msg(severity: Zerolog.Level, message: string)
      modifies this
      ensures events == old(events) + [Event(severity, message)]
    {
      events := events + [Event(severity, message)];
    }
  }

  /** The level used to choose the sink severity: NoLevel stands for the default level. */
  function EffectiveLevel(level: Hclog.Level, defaultLevel: Hclog.Level): (r: Hclog.Level)
    ensures level != Hclog.NoLevel ==> r == level
    ensures level == Hclog.NoLevel ==> r == defaultLevel
  {
    if level == Hclog.NoLevel then defaultLevel else level
  }

  /** The switch on the effective level: the zerolog severity the line goes out at, or None when
      the switch has no case for the level and nothing is written. */
  function SinkSeverity(level: Hclog.Level): (r: Option<Zerolog.Level>)
    ensures r.Some? <==> Hclog.IsNamed(level) || level == Hclog.NoLevel
    ensures r.Some? ==> Zerolog.IsOrdered(r.value)
    ensures Hclog.IsNamed(level) ==> r.Some? && Zerolog.Name(r.value) == Hclog.Name(level)
    ensures level == Hclog.NoLevel ==> r == Some(Zerolog.InfoLevel)
  {
    match level
    case NoLevel => Some(Zerolog.InfoLevel)
    case Trace => Some(Zerolog.TraceLevel)
    case Debug => Some(Zerolog.DebugLevel)
    case Info => Some(Zerolog.InfoLevel)
    case Warn => Some(Zerolog.WarnLevel)
    case Error => Some(Zerolog.ErrorLevel)
    case _ => None
  }

  /** The events `Log` writes for the normalised line `line` logged at `level`. */
  function LogEvents(level: Hclog.Level, defaultLevel: Hclog.Level, line: string): (r: seq<Event>)
    ensures |r| <= 1
    ensures r == [] <==> line == IgnoredLogLine || SinkSeverity(EffectiveLevel(level, defaultLevel)).None?
    ensures r != [] ==> r[0].message == line
  {
    if line == IgnoredLogLine then []
    else
      match SinkSeverity(EffectiveLevel(level, defaultLevel))
      case None => []
      case Some(severity) => [Event(severity, line)]
  }

  /** A named level sends every line but the sentinel as exactly one event, at the severity with
      the same name, whatever the default level is. */
  lemma NamedLevelRouted(level: Hclog.Level, defaultLevel: Hclog.Level, line: string)
    requires Hclog.IsNamed(level) && line != IgnoredLogLine
    ensures var r := LogEvents(level, defaultLevel, line);
            |r| == 1 && r[0].message == line && Zerolog.IsOrdered(r[0].severity)
            && Zerolog.Name(r[0].severity) == Hclog.Name(level)
  {
  }

  /** A line logged without a level goes out as the default level would. */
  lemma NoLevelUsesDefault(defaultLevel: Hclog.Level, line: string)
    ensures LogEvents(Hclog.NoLevel, defaultLevel, line) == LogEvents(defaultLevel, defaultLevel, line)
  {
  }

  /** `LogHCLevelFromZerologLevel`: the hclog level matching a zerolog level; every zerolog level,
      known or not, gets a named hclog level. */
  function LogHCLevelFromZerologLevel(lev: Zerolog.Level): (r: Hclog.Level)
    ensures Hclog.IsNamed(r)
    ensures lev.PanicLevel? || lev.FatalLevel? || lev.Disabled? || lev.ErrorLevel? <==> r == Hclog.Error
    ensures lev.NoLevel? || lev.TraceLevel? || lev.OtherLevel? <==> r == Hclog.Trace
    ensures lev.TraceLevel? || lev.DebugLevel? || lev.InfoLevel? || lev.WarnLevel? || lev.ErrorLevel?
            ==> Hclog.Name(r) == Zerolog.Name(lev)
  {
    match lev
    case PanicLevel => Hclog.Error
    case FatalLevel => Hclog.Error
    case Disabled => Hclog.Error
    case ErrorLevel => Hclog.Error
    case NoLevel => Hclog.Trace
    case TraceLevel => Hclog.Trace
    case DebugLevel => Hclog.Debug
    case InfoLevel => Hclog.Info
    case WarnLevel => Hclog.Warn
    case OtherLevel(_) => Hclog.Trace
  }

  /** Translating a named hclog level to its sink severity and back gives the level again. */
  lemma SeverityRoundTrip(level: Hclog.Level)
    requires Hclog.IsNamed(level)
    ensures SinkSeverity(level).Some? && LogHCLevelFromZerologLevel(SinkSeverity(level).value) == level
  {
  }

  /** The translation keeps the order of importance between the ordered zerolog levels. */
  lemma TranslationMonotonic(a: Zerolog.Level, b: Zerolog.Level)
    requires Zerolog.IsOrdered(a) && Zerolog.IsOrdered(b) && Zerolog.Rank(a) <= Zerolog.Rank(b)
    ensures Hclog.Rank(LogHCLevelFromZerologLevel(a)) <= Hclog.Rank(LogHCLevelFromZerologLevel(b))
  {
  }
}
