/**
 * The logging options: the level chosen from the verbosity count, the logger's
 * configuration record with its defaults and builders, and where log files go. Installing
 * the subscribers and writers is outside the model; the per-user data directory, when the
 * platform has one, is a parameter.
 */
module Logger {
  import opened Wrappers

  /** The levels, least verbose first. */
  datatype Level = ERROR | WARN | INFO | DEBUG | TRACE

  function LevelRank(l: Level): nat
  {
    match l
    case ERROR => 0
    case WARN => 1
    case INFO => 2
    case DEBUG => 3
    case TRACE => 4
  }

  /** No flag is INFO, one `-v` is DEBUG, anything more is TRACE; more flags never log less. */
  function LevelFromVerbosity(verbosity: nat): (l: Level)
    ensures verbosity == 0 <==> l == INFO
    ensures verbosity == 1 <==> l == DEBUG
    ensures verbosity >= 2 <==> l == TRACE
  {
    if verbosity == 0 then INFO else if verbosity == 1 then DEBUG else TRACE
  }

  lemma {:induction false} LevelMonotone(a: nat, b: nat)
    requires a <= b
    ensures LevelRank(LevelFromVerbosity(a)) <= LevelRank(LevelFromVerbosity(b))
  {
  }

  datatype LoggerConfig = LoggerConfig(
    level: Level,
    enableFileLogging: bool,
    enableJsonFormat: bool,
    logDir: Option<string>,
    tuiMode: bool)

  const DEFAULT_LOGGER: LoggerConfig := LoggerConfig(INFO, false, false, None, false)

  function WithLevel(c: LoggerConfig, level: Level): (r: LoggerConfig)
    ensures r.level == level && r == c.(level := level)
  {
    c.(level := level)
  }

  function WithFileLogging(c: LoggerConfig, enable: bool): (r: LoggerConfig)
    ensures r.enableFileLogging == enable && r == c.(enableFileLogging := enable)
  {
    c.(enableFileLogging := enable)
  }

  function WithJsonFormat(c: LoggerConfig, enable: bool): (r: LoggerConfig)
    ensures r.enableJsonFormat == enable && r == c.(enableJsonFormat := enable)
  {
    c.(enableJsonFormat := enable)
  }

  function WithLogDir(c: LoggerConfig, dir: string): (r: LoggerConfig)
    ensures r.logDir == Some(dir) && r == c.(logDir := Some(dir))
  {
    c.(logDir := Some(dir))
  }

  function WithTuiMode(c: LoggerConfig, enable: bool): (r: LoggerConfig)
    ensures r.tuiMode == enable && r == c.(tuiMode := enable)
  {
    c.(tuiMode := enable)
  }

  /** Each builder changes its own field only, so builders of different fields commute. */
  lemma {:induction false} BuildersCommute(c: LoggerConfig, l: Level, f: bool, j: bool, d: string, t: bool)
    ensures WithFileLogging(WithLevel(c, l), f) == WithLevel(WithFileLogging(c, f), l)
    ensures WithJsonFormat(WithLogDir(c, d), j) == WithLogDir(WithJsonFormat(c, j), d)
    ensures WithTuiMode(WithLevel(c, l), t) == WithLevel(WithTuiMode(c, t), l)
    ensures WithLevel(WithLevel(c, l), l) == WithLevel(c, l)
  {
  }

  const FALLBACK_LOG_DIR: string := "./logs"

  /**
   * `get_log_dir`: the configured directory whenever one is set; else `logs` under the
   * platform's data directory, else "./logs".
   */
  function GetLogDir(c: LoggerConfig, dataDir: Option<string>): (d: string)
    ensures c.logDir.Some? ==> d == c.logDir.value
    ensures c.logDir.None? && dataDir.None? ==> d == FALLBACK_LOG_DIR
    ensures c.logDir.None? && dataDir.Some? ==> d == dataDir.value + "/logs"
  {
    if c.logDir.Some? then c.logDir.value
    else if dataDir.Some? then dataDir.value + "/logs"
    else FALLBACK_LOG_DIR
  }

  /** The defaults: INFO, no file or JSON logging, no directory, not in interface mode. */
  lemma DefaultLoggerIs()
    ensures DEFAULT_LOGGER.level == INFO && !DEFAULT_LOGGER.enableFileLogging && !DEFAULT_LOGGER.enableJsonFormat
    ensures DEFAULT_LOGGER.logDir.None? && !DEFAULT_LOGGER.tuiMode
  {
  }
}
