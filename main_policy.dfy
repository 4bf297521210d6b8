/**
 * The entry point of the flat tree: which of its modes a run enters, in what order the
 * command-line flags are consulted, and the configuration, log level and history each mode
 * starts from. The modes themselves are modelled in their own modules; here a run ends in
 * the mode it dispatches to, or in the error that stops it first.
 *
 * The world is a set of inputs: the tool check's outcome, the configuration file reader
 * (`readConfig`), whether a default configuration file exists, the environment, the
 * history load and the URL found on the clipboard. The `--examples` flag the entry point
 * reads first is not a field of the parsed arguments as written; it is a separate input.
 */
module MainPolicy {
  import opened Wrappers
  import opened Shared
  import opened Utils
  import opened CliArgs
  import opened AppConfig
  import opened Logger
  import opened HistoryStore
  import opened Playlist

  /** Where a run reads its configuration from. */
  datatype ConfigSource = FromFile(path: string) | FromEnvironment

  /** The mode a run dispatches to, with what that mode is given. */
  datatype Mode =
    | PrintExamples
    | Subcommand(command: Command)
    | WatchClipboard
    | Interactive
    | BatchFile(path: string, stopOnError: bool, skipDuplicates: bool)
    | ShowInfo(url: string)
    | PlaylistDownload(url: string, range: Option<string>, folder: Option<string>)
    | SingleDownload(url: string, resume: bool)

  /** A dispatched run: its mode, the configuration and the history it starts from. */
  datatype Dispatch = Dispatch(mode: Mode, config: ConfigValue, history: seq<HistoryEntry>)

  datatype World = World(
    ytdlp: Result<string, YtdlError>,
    readConfig: string -> Result<ConfigValue, YtdlError>,
    defaultConfigPath: Option<string>,
    defaultConfigExists: bool,
    env: map<string, string>,
    historyLoad: Result<seq<HistoryEntry>, YtdlError>,
    clipboardUrl: Option<string>)

  const NO_CLIPBOARD_URL: string := "No valid YouTube URL found in clipboard"

  /** `--quiet` logs errors only; otherwise the verbosity count chooses. */
  function LogLevel(cli: Cli): (l: Level)
    ensures cli.quiet ==> l == ERROR
    ensures !cli.quiet ==> l == LevelFromVerbosity(cli.verbose)
  {
    if cli.quiet then ERROR else LevelFromVerbosity(cli.verbose)
  }

  /** The logger the run installs: the default with the chosen level and the two logging flags. */
  function LoggerFor(cli: Cli): (c: LoggerConfig)
    ensures c == DEFAULT_LOGGER.(level := LogLevel(cli), enableFileLogging := cli.logFile, enableJsonFormat := cli.logJson)
  {
    WithJsonFormat(WithFileLogging(WithLevel(DEFAULT_LOGGER, LogLevel(cli)), cli.logFile), cli.logJson)
  }

  /** An explicit `--config` file first, then an existing default file, else the environment. */
  function SourceFor(cli: Cli, w: World): (s: ConfigSource)
    ensures cli.config.Some? ==> s == FromFile(cli.config.value)
    ensures s.FromEnvironment? <==> cli.config.None? && !(w.defaultConfigPath.Some? && w.defaultConfigExists)
  {
    if cli.config.Some? then FromFile(cli.config.value)
    else if w.defaultConfigPath.Some? && w.defaultConfigExists then FromFile(w.defaultConfigPath.value)
    else FromEnvironment
  }

  function CliConfigOf(cli: Cli): CliConfig
  {
    CliConfig(cli.output, cli.quality, cli.audioOnly, cli.logFile, cli.logJson)
  }

  /** The configuration after the command line: merged, and `--concurrent` overriding only when positive. */
  function Configured(loaded: ConfigValue, cli: Cli): (c: ConfigValue)
    ensures cli.concurrent > 0 ==> c.concurrentDownloads == Some(cli.concurrent)
    ensures cli.concurrent == 0 ==> c.concurrentDownloads == loaded.concurrentDownloads
    ensures c.skipDuplicates == loaded.skipDuplicates
    ensures c.(concurrentDownloads := loaded.concurrentDownloads) == Merged(loaded, CliConfigOf(cli))
  {
    var m := Merged(loaded, CliConfigOf(cli));
    if cli.concurrent > 0 then m.(concurrentDownloads := Some(cli.concurrent)) else m
  }

  /** Batch runs skip known URLs unless the configuration says `false` outright. */
  function SkipsDuplicates(c: ConfigValue): (b: bool)
    ensures b <==> c.skipDuplicates != Some(false)
  {
    c.skipDuplicates.GetOr(true)
  }

  /** The mode for a URL that passed validation: info, then playlist, then a single download. */
  function UrlMode(cli: Cli, url: string): (m: Mode)
    ensures cli.info ==> m == ShowInfo(url)
    ensures !cli.info ==> (m.PlaylistDownload? <==> cli.playlist || IsPlaylistUrl(url))
    ensures m.PlaylistDownload? ==> m == PlaylistDownload(url, cli.range, cli.folder)
    ensures m.SingleDownload? ==> m == SingleDownload(url, cli.resume)
  {
    if cli.info then ShowInfo(url)
    else if cli.playlist || IsPlaylistUrl(url) then PlaylistDownload(url, cli.range, cli.folder)
    else SingleDownload(url, cli.resume)
  }

  /** The policy once the configuration and history are in place. */
  function ModeFor(cli: Cli, config: ConfigValue, w: World): Result<Mode, YtdlError>
  {
    if cli.command.Some? then Ok(Subcommand(cli.command.value))
    else if cli.watch then Ok(WatchClipboard)
    else if cli.interactive then Ok(Interactive)
    else if cli.batch.Some? then Ok(BatchFile(cli.batch.value, cli.stopOnError, SkipsDuplicates(config)))
    else if cli.clipboard && w.clipboardUrl.None? then Err(Other(NO_CLIPBOARD_URL))
    else
      var url := if cli.clipboard then w.clipboardUrl else cli.url;
      if url.None? then Err(Config(NO_URL_MESSAGE))
      else if ValidateYoutubeUrl(url.value).Err? then Err(ValidateYoutubeUrl(url.value).error)
      else Ok(UrlMode(cli, url.value))
  }

  /**
   * `run`: as a method on the configuration object the way the entry point builds it.
   * `--examples` comes before everything; then validation, the tool check and the
   * configuration load may each stop the run; a history that fails to load is replaced by
   * an empty one; then the modes are tried in their fixed order.
   */
  method Run(cli: Cli, examples: bool, w: World) returns (r: Result<Dispatch, YtdlError>)
    ensures r == RunOutcome(cli, examples, w)
  {
    if examples {
      return Ok(Dispatch(PrintExamples, DEFAULT_CONFIG, []));
    }
    var valid := Validate(cli);
    if valid.Err? {
      return Err(Config(valid.error));
    }
    if w.ytdlp.Err? {
      return Err(w.ytdlp.error);
    }
    var source := SourceFor(cli, w);
    var config: Config;
    if source.FromFile? {
      var read := w.readConfig(source.path);
      if read.Err? {
        return Err(read.error);
      }
      config := new Config.FromValue(read.value);
    } else {
      config := LoadWithEnvOverrides(w.env);
    }
    ghost var loaded := config.Value();
    assert loaded == Loaded(cli, w).value;
    config.MergeWithCli(CliConfigOf(cli));
    if cli.concurrent > 0 {
      config.concurrentDownloads := Some(cli.concurrent);
    }
    var value := config.Value();
    assert value == Configured(loaded, cli);
    var history := if w.historyLoad.Ok? then w.historyLoad.value else [];
    var mode := ModeFor(cli, value, w);
    if mode.Err? {
      return Err(mode.error);
    }
    r := Ok(Dispatch(mode.value, value, history));
  }

  /** The configuration a run that got past the tool check loads. */
  function Loaded(cli: Cli, w: World): Result<ConfigValue, YtdlError>
  {
    match SourceFor(cli, w)
    case FromFile(path) => w.readConfig(path)
    case FromEnvironment => Ok(WithEnv(w.env))
  }

  /** Where a run ends, as a function of the inputs. */
  function RunOutcome(cli: Cli, examples: bool, w: World): Result<Dispatch, YtdlError>
  {
    if examples then Ok(Dispatch(PrintExamples, DEFAULT_CONFIG, []))
    else if Validate(cli).Err? then Err(Config(Validate(cli).error))
    else if w.ytdlp.Err? then Err(w.ytdlp.error)
    else if Loaded(cli, w).Err? then Err(Loaded(cli, w).error)
    else
      var config := Configured(Loaded(cli, w).value, cli);
      match ModeFor(cli, config, w)
      case Err(e) => Err(e)
      case Ok(m) => Ok(Dispatch(m, config, if w.historyLoad.Ok? then w.historyLoad.value else []))
  }

  /**
   * The order of the early exits: `--examples` before anything, then validation (its message
   * as a configuration error), then the tool check, then the configuration load.
   */
  lemma {:induction false} EarlyExits(cli: Cli, examples: bool, w: World)
    ensures examples ==> RunOutcome(cli, examples, w) == Ok(Dispatch(PrintExamples, DEFAULT_CONFIG, []))
    ensures !examples && Validate(cli).Err? ==> RunOutcome(cli, examples, w) == Err(Config(Validate(cli).error))
    ensures !examples && Validate(cli).Ok? && w.ytdlp.Err? ==> RunOutcome(cli, examples, w) == Err(w.ytdlp.error)
    ensures !examples && Validate(cli).Ok? && w.ytdlp.Ok? && Loaded(cli, w).Err? ==> RunOutcome(cli, examples, w) == Err(Loaded(cli, w).error)
  {
  }

  /** A dispatched run starts from the loaded, merged configuration and the loaded history, or an empty one. */
  lemma {:induction false} DispatchedState(cli: Cli, examples: bool, w: World)
    requires !examples && RunOutcome(cli, examples, w).Ok?
    ensures Validate(cli).Ok? && w.ytdlp.Ok? && Loaded(cli, w).Ok?
    ensures RunOutcome(cli, examples, w).value.config == Configured(Loaded(cli, w).value, cli)
    ensures RunOutcome(cli, examples, w).value.history == (if w.historyLoad.Ok? then w.historyLoad.value else [])
    ensures Ok(RunOutcome(cli, examples, w).value.mode) == ModeFor(cli, RunOutcome(cli, examples, w).value.config, w)
  {
  }

  /**
   * The "No URL provided" error after dispatch can never be reached: validation already
   * demands a URL, a batch file, a subcommand or the interactive flag, and the last three
   * dispatch before the URL is looked at.
   */
  lemma {:induction false} NoUrlOnlyFromValidation(cli: Cli, w: World)
    requires Validate(cli).Ok?
    ensures forall c :: ModeFor(cli, c, w) != Err(Config(NO_URL_MESSAGE))
  {
  }

  /** The clipboard replaces a given URL, and an empty clipboard stops the run even when a URL was given. */
  lemma {:induction false} ClipboardWinsOverUrl(cli: Cli, c: ConfigValue, w: World)
    requires cli.command.None? && !cli.watch && !cli.interactive && cli.batch.None? && cli.clipboard
    ensures w.clipboardUrl.None? ==> ModeFor(cli, c, w) == Err(Other(NO_CLIPBOARD_URL))
    ensures w.clipboardUrl.Some? && ValidateYoutubeUrl(w.clipboardUrl.value).Ok? ==> ModeFor(cli, c, w) == Ok(UrlMode(cli, w.clipboardUrl.value))
  {
  }

  /** Playlist handling is entered exactly for a valid URL with `--playlist` or a playlist shape, unless `--info`. */
  lemma {:induction false} PlaylistDetection(cli: Cli, c: ConfigValue, w: World)
    requires cli.command.None? && !cli.watch && !cli.interactive && cli.batch.None? && !cli.clipboard && cli.url.Some?
    ensures ModeFor(cli, c, w).Ok? && ModeFor(cli, c, w).value.PlaylistDownload? <==>
              IsYoutubeUrl(cli.url.value) && !cli.info && (cli.playlist || IsPlaylistUrl(cli.url.value))
  {
  }

  /** A subcommand is dispatched whatever else the command line holds. */
  lemma {:induction false} SubcommandFirst(cli: Cli, c: ConfigValue, w: World)
    requires cli.command.Some?
    ensures ModeFor(cli, c, w) == Ok(Subcommand(cli.command.value))
  {
  }
}
