/**
 * The messaging logger (`Logger`): a configuration fixed at construction,
 * a level filter, a line formatter, and routing of each line either to a
 * configured log function or to the console method of its level. The clock
 * (`new Date().toISOString()`) is a parameter; what would be written is returned.
 */
module Logging {
  import opened Wrappers
  import opened Strings

  datatype Level = Debug | Info | Warn | Error | Silent  // `Silent` is `LogLevel.NONE`

  /** The enum's string value: `'debug'`, `'info'`, `'warn'`, `'error'`, `'none'`. */
  function Name(l: Level): string {
    match l
    case Debug => "debug"
    case Info => "info"
    case Warn => "warn"
    case Error => "error"
    case Silent => "none"
  }

  /** `[DEBUG, INFO, WARN, ERROR].indexOf(l)`: `-1` for `NONE`, which the list lacks. */
  function Rank(l: Level): int {
    match l
    case Debug => 0
    case Info => 1
    case Warn => 2
    case Error => 3
    case Silent => -1
  }

  /** The level tag `formatMessage` prints is the upper-cased enum value. */
  lemma LevelLabels()
    ensures Upper(Name(Debug)) == "DEBUG" && Upper(Name(Info)) == "INFO"
    ensures Upper(Name(Warn)) == "WARN" && Upper(Name(Error)) == "ERROR"
  {
  }

  lemma JoinPair(a: string, b: string, sep: string)
    ensures Join([a, b], sep) == a + sep + b
  {
    assert [a, b][1..] == [b];
  }

  lemma JoinCons(x: string, rest: seq<string>, sep: string)
    requires rest != []
    ensures Join([x] + rest, sep) == x + sep + Join(rest, sep)
  {
    assert ([x] + rest)[1..] == rest;
  }

  /** The identity of a custom `logFn`. */
  type LogFnId = nat

  /** The configuration passed to the constructor; `None` is a property that was not supplied. */
  datatype LoggerOptions = LoggerOptions(appId: string, level: Option<Level>, timestamps: Option<bool>, logFn: Option<LogFnId>)

  /** The configuration in force: every property now has a value, except the optional `logFn`. */
  datatype LoggerConfig = LoggerConfig(appId: string, level: Level, timestamps: bool, logFn: Option<LogFnId>)

  /** `{...DEFAULT_CONFIG, ...config}` with `DEFAULT_CONFIG = {level: INFO, timestamps: true}`. */
  function WithDefaults(o: LoggerOptions): (c: LoggerConfig)
    ensures c.appId == o.appId && c.logFn == o.logFn
    ensures o.level.Some? ==> c.level == o.level.value
    ensures o.level.None? ==> c.level == Info
    ensures o.timestamps.Some? ==> c.timestamps == o.timestamps.value
    ensures o.timestamps.None? ==> c.timestamps
  {
    LoggerConfig(o.appId, o.level.GetOr(Info), o.timestamps.GetOr(true), o.logFn)
  }

  /** `shouldLog`: nothing passes `NONE`; otherwise a level passes when it ranks at least as high as the configured one. */
  predicate ShouldLog(configured: Level, l: Level) {
    if configured == Silent then false else Rank(l) >= Rank(configured)
  }

  /** With level `NONE` nothing is logged; otherwise the filter is the order DEBUG < INFO < WARN < ERROR. */
  lemma ShouldLogOrder(configured: Level, l: Level)
    ensures configured == Silent ==> !ShouldLog(configured, l)
    ensures configured != Silent && l != Silent ==> (ShouldLog(configured, l) <==> Rank(l) >= Rank(configured))
    ensures configured != Silent ==> ShouldLog(configured, Error) && !ShouldLog(configured, Silent)
  {
  }

  /** The filter is monotone: a level that passes lets every higher level pass. */
  lemma ShouldLogMonotone(configured: Level, l: Level, m: Level)
    requires ShouldLog(configured, l) && Rank(l) <= Rank(m)
    ensures ShouldLog(configured, m)
  {
  }

  /** What the console receives as its second argument: the data, or `''` when it is undefined. */
  datatype ConsoleArg<V> = Data(value: V) | EmptyString

  /** One written line: handed to the custom log function, or to `console.debug`/`info`/`warn`/`error`. */
  datatype Emission<V> =
    | ToLogFn(fn: LogFnId, level: Level, text: string, data: Option<V>)
    | ToConsole(channel: Level, text: string, arg: ConsoleArg<V>)

  class Logger {
    const config: LoggerConfig

    constructor (options: LoggerOptions)
      ensures config == WithDefaults(options)
    {
      config := WithDefaults(options);
    }

    /** The `parts` array `formatMessage` builds before joining it with spaces. */
    function Parts(level: Level, message: string, isoTime: string): seq<string> {
      ["[" + config.appId + "]"]
      + (if config.timestamps then ["[" + isoTime + "]"] else [])
      + ["[" + Upper(Name(level)) + "]", message]
    }

    /** `formatMessage`: `[appId]`, then `[time]` only when timestamps are on, then `[LEVEL]`, then the message, separated by single spaces. */
    function FormatMessage(level: Level, message: string, isoTime: string): (r: string)
      ensures r == "[" + config.appId + "] "
                 + (if config.timestamps then "[" + isoTime + "] " else "")
                 + "[" + Upper(Name(level)) + "] " + message
    {
      var head := "[" + config.appId + "]";
      var stamp := "[" + isoTime + "]";
      var levelTag := "[" + Upper(Name(level)) + "]";
      JoinPair(levelTag, message, " ");
      if config.timestamps then
        assert Parts(level, message, isoTime) == [head] + ([stamp] + [levelTag, message]);
        JoinCons(stamp, [levelTag, message], " ");
        JoinCons(head, [stamp] + [levelTag, message], " ");
        Join(Parts(level, message, isoTime), " ")
      else
        assert Parts(level, message, isoTime) == [head] + [levelTag, message];
        JoinCons(head, [levelTag, message], " ");
        Join(Parts(level, message, isoTime), " ")
    }

    /** What `log(level, message, data)` writes: nothing when filtered out, else the formatted line, routed. */
    ghost predicate Routed<V>(level: Level, message: string, data: Option<V>, isoTime: string, out: Option<Emission<V>>) {
      if !ShouldLog(config.level, level) then out.None?
      else
        var text := FormatMessage(level, message, isoTime);
        match config.logFn
        case Some(fn) => out == Some(ToLogFn(fn, level, text, data))
        case None => out == Some(ToConsole(level, text, if data.Some? then Data(data.value) else EmptyString))
    }

    /** `log`, with `consoleLog`'s switch over the level. */
    method Log<V>(level: Level, message: string, data: Option<V>, isoTime: string) returns (out: Option<Emission<V>>)
      ensures Routed(level, message, data, isoTime, out)
    {
      if !ShouldLog(config.level, level) {
        return None;
      }
      var text := FormatMessage(level, message, isoTime);
      if config.logFn.Some? {
        out := Some(ToLogFn(config.logFn.value, level, text, data));
      } else {
        var arg := if data.Some? then Data(data.value) else EmptyString;
        match level
        case Debug => out := Some(ToConsole(Debug, text, arg));
        case Info => out := Some(ToConsole(Info, text, arg));
        case Warn => out := Some(ToConsole(Warn, text, arg));
        case Error => out := Some(ToConsole(Error, text, arg));
        case Silent => out := None;
      }
    }

    method LogDebug<V>(message: string, data: Option<V>, isoTime: string) returns (out: Option<Emission<V>>)
      ensures Routed(Debug, message, data, isoTime, out)
    {
      out := Log(Debug, message, data, isoTime);
    }

    method LogInfo<V>(message: string, data: Option<V>, isoTime: string) returns (out: Option<Emission<V>>)
      ensures Routed(Info, message, data, isoTime, out)
    {
      out := Log(Info, message, data, isoTime);
    }

    method LogWarn<V>(message: string, data: Option<V>, isoTime: string) returns (out: Option<Emission<V>>)
      ensures Routed(Warn, message, data, isoTime, out)
    {
      out := Log(Warn, message, data, isoTime);
    }

    method LogError<V>(message: string, data: Option<V>, isoTime: string) returns (out: Option<Emission<V>>)
      ensures Routed(Error, message, data, isoTime, out)
    {
      out := Log(Error, message, data, isoTime);
    }
  }
}
