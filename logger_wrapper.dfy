/** `LoggerWrapper` (logger_wrapper.go): the hclog.Logger the host hands to the plugin client, which
    normalises each rendered line and forwards it to a zerolog sink. hclog's rendering is not part
    of this model: each logging method takes the line hclog rendered for the message. */
module Wrapper {
  import opened Text
  import Normalizer
  import opened LogRouting
  import Hclog
  import Zerolog

  class LoggerWrapper {
    /** The embedded hclog logger. */
    const base: Hclog.Logger
    const lg: EventSink
    const opts: Hclog.LoggerOptions
    /** hclog's `Level.String()`: `Hclog.Name` on the five named levels (NamesAgree). */
    const levelName: Hclog.Level -> string
    /** hclog's `DefaultLevel`. */
    const defaultLevel: Hclog.Level

    constructor (base: Hclog.Logger, lg: EventSink, opts: Hclog.LoggerOptions,
                 levelName: Hclog.Level -> string, defaultLevel: Hclog.Level)
      requires forall l :: Hclog.IsNamed(l) ==> levelName(l) == Hclog.Name(l)
      ensures this.base == base && this.lg == lg && this.opts == opts
      ensures this.levelName == levelName && this.defaultLevel == defaultLevel
      ensures NamesAgree()
    {
      this.base := base;
      this.lg := lg;
      this.opts := opts;
      this.levelName := levelName;
      this.defaultLevel := defaultLevel;
    }

    /** `levelName` is hclog's level naming. */
    ghost predicate NamesAgree() {
      forall l :: Hclog.IsNamed(l) ==> levelName(l) == Hclog.Name(l)
    }

    /** The level token of a line logged at `level`: its name in upper case. */
    function LevelToken(level: Hclog.Level): (r: string)
      ensures |r| == |levelName(level)|
      ensures NamesAgree() && Hclog.IsNamed(level) ==> r == ToUpper(Hclog.Name(level))
    {
      ToUpper(levelName(level))
    }

    /** The normalised text of the line hclog rendered at `level`. */
    method RenderLogLineToString(level: Hclog.Level, rendered: string) returns (logStr: string)
      ensures logStr == Normalizer.Normalize(rendered, LevelToken(level))
      ensures var asWritten := Normalizer.NormalizeAsWritten(rendered, LevelToken(level));
              asWritten.Returned? ==> logStr == asWritten.value
    {
      Normalizer.AsWrittenAgreesWhenNoPanic(rendered, LevelToken(level));
      logStr := Normalizer.RenderLogLineToString(rendered, LevelToken(level));
    }

    /** The line is normalised with the token of the level it was logged at; NoLevel is replaced
        by the default level only to choose the severity it goes out at. Wherever the loop as
        written does not panic, the event is the one the program writes. */
    method Log(level: Hclog.Level, rendered: string)
      modifies lg
      ensures lg.events
              == old(lg.events) + LogEvents(level, defaultLevel, Normalizer.Normalize(rendered, LevelToken(level)))
      ensures var asWritten := Normalizer.NormalizeAsWritten(rendered, LevelToken(level));
              asWritten.Returned? ==> lg.events == old(lg.events) + LogEvents(level, defaultLevel, asWritten.value)
    {
      var levelLocal := level;
      if levelLocal == Hclog.NoLevel {
        levelLocal := defaultLevel;
      }

      var logStr := RenderLogLineToString(level, rendered);

      if logStr == IgnoredLogLine {
        return;
      }

      match levelLocal
      case NoLevel => lg.Msg(Zerolog.InfoLevel, logStr);
      case Trace => lg.Msg(Zerolog.TraceLevel, logStr);
      case Debug => lg.Msg(Zerolog.DebugLevel, logStr);
      case Info => lg.Msg(Zerolog.InfoLevel, logStr);
      case Warn => lg.Msg(Zerolog.WarnLevel, logStr);
      case Error => lg.Msg(Zerolog.ErrorLevel, logStr);
      case _ =>
    }

    method Trace(rendered: string)
      modifies lg
      ensures lg.events
              == old(lg.events) + LogEvents(Hclog.Trace, defaultLevel, Normalizer.Normalize(rendered, LevelToken(Hclog.Trace)))
    {
      Log(Hclog.Trace, rendered);
    }

    method Debug(rendered: string)
      modifies lg
      ensures lg.events
              == old(lg.events) + LogEvents(Hclog.Debug, defaultLevel, Normalizer.Normalize(rendered, LevelToken(Hclog.Debug)))
    {
      Log(Hclog.Debug, rendered);
    }

    method Info(rendered: string)
      modifies lg
      ensures lg.events
              == old(lg.events) + LogEvents(Hclog.Info, defaultLevel, Normalizer.Normalize(rendered, LevelToken(Hclog.Info)))
    {
      Log(Hclog.Info, rendered);
    }

    method Warn(rendered: string)
      modifies lg
      ensures lg.events
              == old(lg.events) + LogEvents(Hclog.Warn, defaultLevel, Normalizer.Normalize(rendered, LevelToken(Hclog.Warn)))
    {
      Log(Hclog.Warn, rendered);
    }

    method Error(rendered: string)
      modifies lg
      ensures lg.events
              == old(lg.events) + LogEvents(Hclog.Error, defaultLevel, Normalizer.Normalize(rendered, LevelToken(Hclog.Error)))
    {
      Log(Hclog.Error, rendered);
    }

    /** A new logger sharing everything with this one; the name is not used. */
    method Named(name: string) returns (r: LoggerWrapper)
      requires NamesAgree()
      ensures fresh(r)
      ensures r.base == base && r.lg == lg && r.opts == opts
      ensures r.levelName == levelName && r.defaultLevel == defaultLevel
      ensures r.NamesAgree()
    {
      r := new LoggerWrapper(base, lg, opts, levelName, defaultLevel);
    }
  }
}
