/**
 * The application configuration: its defaults, the overrides read from the environment,
 * and the merge of command-line values into it. Reading and parsing the configuration
 * file and locating the per-user configuration directory are outside the model; the
 * environment is a map from variable names to values.
 *
 * `concurrentDownloads` and `skipDuplicates` are read by the batch runner and the entry
 * point but are missing from the record as written; they are optional fields here, unset
 * by default.
 */
module AppConfig {
  import opened Wrappers
  import opened Text

  /** The configuration as a value, the way the batch runner and the commands receive it by clone. */
  datatype ConfigValue = ConfigValue(
    outputDir: string,
    quality: string,
    audioOnly: bool,
    logLevel: string,
    enableFileLogging: bool,
    enableJsonLogging: bool,
    concurrentDownloads: Option<nat>,
    skipDuplicates: Option<bool>)

  const DEFAULT_CONFIG: ConfigValue := ConfigValue("./downloads", "best", false, "info", false, false, None, None)

  /** The command-line values that can override the configuration. */
  datatype CliConfig = CliConfig(
    output: Option<string>,
    quality: Option<string>,
    audioOnly: bool,
    enableFileLogging: bool,
    enableJsonLogging: bool)

  const ENV_OUTPUT_DIR: string := "YTDL_OUTPUT_DIR"
  const ENV_LOG_LEVEL: string := "YTDL_LOG_LEVEL"
  const ENV_LOG_FILE: string := "YTDL_LOG_FILE"
  const ENV_LOG_JSON: string := "YTDL_LOG_JSON"

  /** A flag variable is on when its value is "true" in any case, or "1". */
  predicate EnvFlag(value: string)
  {
    ToLower(value) == "true" || value == "1"
  }

  /** The merge as a function of the configuration and the command-line values. */
  function Merged(c: ConfigValue, cli: CliConfig): ConfigValue
  {
    c.(outputDir := if cli.output.Some? then cli.output.value else c.outputDir,
       quality := if cli.quality.Some? then cli.quality.value else c.quality,
       audioOnly := c.audioOnly || cli.audioOnly,
       enableFileLogging := c.enableFileLogging || cli.enableFileLogging,
       enableJsonLogging := c.enableJsonLogging || cli.enableJsonLogging)
  }

  /** The defaults with the environment's overrides applied. */
  function WithEnv(env: map<string, string>): ConfigValue
  {
    DEFAULT_CONFIG.(
      outputDir := if ENV_OUTPUT_DIR in env then env[ENV_OUTPUT_DIR] else DEFAULT_CONFIG.outputDir,
      logLevel := if ENV_LOG_LEVEL in env then env[ENV_LOG_LEVEL] else DEFAULT_CONFIG.logLevel,
      enableFileLogging := ENV_LOG_FILE in env && EnvFlag(env[ENV_LOG_FILE]),
      enableJsonLogging := ENV_LOG_JSON in env && EnvFlag(env[ENV_LOG_JSON]))
  }

  class Config {
    var outputDir: string
    var quality: string
    var audioOnly: bool
    var logLevel: string
    var enableFileLogging: bool
    var enableJsonLogging: bool
    var concurrentDownloads: Option<nat>
    var skipDuplicates: Option<bool>

    function Value(): ConfigValue
      reads this
    {
      ConfigValue(outputDir, quality, audioOnly, logLevel, enableFileLogging, enableJsonLogging, concurrentDownloads, skipDuplicates)
    }

    /** `Config::default` (and `Config::new`). */
    constructor ()
      ensures Value() == DEFAULT_CONFIG
    {
      outputDir := "./downloads";
      quality := "best";
      audioOnly := false;
      logLevel := "info";
      enableFileLogging := false;
      enableJsonLogging := false;
      concurrentDownloads := None;
      skipDuplicates := None;
    }

    /** A configuration holding the values a configuration file was read into. */
    constructor FromValue(v: ConfigValue)
      ensures Value() == v
    {
      outputDir, quality, audioOnly := v.outputDir, v.quality, v.audioOnly;
      logLevel, enableFileLogging, enableJsonLogging := v.logLevel, v.enableFileLogging, v.enableJsonLogging;
      concurrentDownloads, skipDuplicates := v.concurrentDownloads, v.skipDuplicates;
    }

    /** `merge_with_cli`: paths and quality only when given, flags only switched on. */
    method MergeWithCli(cli: CliConfig)
      modifies this
      ensures Value() == Merged(old(Value()), cli)
    {
      if cli.output.Some? {
        outputDir := cli.output.value;
      }
      if cli.quality.Some? {
        quality := cli.quality.value;
      }
      if cli.audioOnly {
        audioOnly := true;
      }
      if cli.enableFileLogging {
        enableFileLogging := true;
      }
      if cli.enableJsonLogging {
        enableJsonLogging := true;
      }
    }
  }

  /** `load_with_env_overrides`: the defaults, then each variable present overrides its field. */
  method LoadWithEnvOverrides(env: map<string, string>) returns (c: Config)
    ensures fresh(c) && c.Value() == WithEnv(env)
  {
    c := new Config();
    if ENV_OUTPUT_DIR in env {
      c.outputDir := env[ENV_OUTPUT_DIR];
    }
    if ENV_LOG_LEVEL in env {
      c.logLevel := env[ENV_LOG_LEVEL];
    }
    if ENV_LOG_FILE in env {
      c.enableFileLogging := EnvFlag(env[ENV_LOG_FILE]);
    }
    if ENV_LOG_JSON in env {
      c.enableJsonLogging := EnvFlag(env[ENV_LOG_JSON]);
    }
  }

  // ---------------------------------------------------------------- properties

  /** The defaults: "./downloads", "best", no audio-only, level "info", no file or JSON logging. */
  lemma DefaultsAre()
    ensures DEFAULT_CONFIG.outputDir == "./downloads" && DEFAULT_CONFIG.quality == "best" && !DEFAULT_CONFIG.audioOnly
    ensures DEFAULT_CONFIG.logLevel == "info" && !DEFAULT_CONFIG.enableFileLogging && !DEFAULT_CONFIG.enableJsonLogging
  {
  }

  /** A path or quality from the command line replaces the configured one; an absent one keeps it. */
  lemma {:induction false} MergeOverridesWhenGiven(c: ConfigValue, cli: CliConfig)
    ensures Merged(c, cli).outputDir == (if cli.output.Some? then cli.output.value else c.outputDir)
    ensures Merged(c, cli).quality == (if cli.quality.Some? then cli.quality.value else c.quality)
    ensures cli.output.None? && cli.quality.None? ==> Merged(c, cli).outputDir == c.outputDir && Merged(c, cli).quality == c.quality
  {
  }

  /**
   * The merge switches flags on and never off, and never touches the log level or the
   * fields the command line cannot set.
   */
  lemma {:induction false} MergeOnlySwitchesOn(c: ConfigValue, cli: CliConfig)
    ensures var m := Merged(c, cli);
            (m.audioOnly <==> c.audioOnly || cli.audioOnly)
            && (m.enableFileLogging <==> c.enableFileLogging || cli.enableFileLogging)
            && (m.enableJsonLogging <==> c.enableJsonLogging || cli.enableJsonLogging)
    ensures var m := Merged(c, cli);
            m.logLevel == c.logLevel && m.concurrentDownloads == c.concurrentDownloads && m.skipDuplicates == c.skipDuplicates
    ensures c.audioOnly ==> Merged(c, cli).audioOnly
  {
  }

  /** Merging the same command-line values twice is merging them once. */
  lemma {:induction false} MergeIdempotent(c: ConfigValue, cli: CliConfig)
    ensures Merged(Merged(c, cli), cli) == Merged(c, cli)
  {
  }

  /** The merge from the module's own test: every given value lands. */
  lemma MergeExample()
    ensures var m := Merged(DEFAULT_CONFIG, CliConfig(Some("/tmp/videos"), Some("720p"), true, true, false));
            m.outputDir == "/tmp/videos" && m.quality == "720p" && m.audioOnly && m.enableFileLogging && !m.enableJsonLogging
  {
  }

  /**
   * The directory and level variables are copied verbatim, the two logging variables set
   * their flag exactly when "true" in any case or "1", and quality and audio-only stay at
   * their defaults whatever the environment holds.
   */
  lemma {:induction false} EnvOverrides(env: map<string, string>)
    ensures var c := WithEnv(env);
            (ENV_OUTPUT_DIR in env ==> c.outputDir == env[ENV_OUTPUT_DIR])
            && (ENV_OUTPUT_DIR !in env ==> c.outputDir == "./downloads")
            && (ENV_LOG_LEVEL in env ==> c.logLevel == env[ENV_LOG_LEVEL])
            && (ENV_LOG_LEVEL !in env ==> c.logLevel == "info")
    ensures var c := WithEnv(env);
            (c.enableFileLogging <==> ENV_LOG_FILE in env && EnvFlag(env[ENV_LOG_FILE]))
            && (c.enableJsonLogging <==> ENV_LOG_JSON in env && EnvFlag(env[ENV_LOG_JSON]))
            && c.quality == "best" && !c.audioOnly
  {
  }

  /** "TRUE", "True" and "1" switch a flag on; "yes" and "0" do not. */
  lemma EnvFlagExamples()
    ensures EnvFlag("TRUE") && EnvFlag("True") && EnvFlag("1")
    ensures !EnvFlag("yes") && !EnvFlag("0")
  {
    assert ToLower("TRUE") == "true" by {
      assert ToLower("TRUE")[0] == 't' && ToLower("TRUE")[1] == 'r' && ToLower("TRUE")[2] == 'u' && ToLower("TRUE")[3] == 'e';
    }
    assert ToLower("True") == "true" by {
      assert ToLower("True")[0] == 't' && ToLower("True")[1] == 'r' && ToLower("True")[2] == 'u' && ToLower("True")[3] == 'e';
    }
    assert |ToLower("yes")| == 3;
    assert |ToLower("0")| == 1;
  }
}
