/**
 * The command-line surface: the parsed arguments with their defaults, and the check the
 * entry point runs on them before anything else. Parsing the argument strings (and the
 * environment fallbacks the parser reads for three of the options) is outside the model;
 * a parse is the `Cli` record it produces.
 */
module CliArgs {
  import opened Wrappers

  datatype Command =
    | ShowConfig
    | ShowHistory(limit: nat, search: Option<string>, csvPath: Option<string>)
    | ClearHistory(olderThan: Option<int>)
    | Completions(shell: string)

  datatype Cli = Cli(
    url: Option<string>,
    output: Option<string>,
    quality: Option<string>,
    audioOnly: bool,
    playlist: bool,
    info: bool,
    interactive: bool,
    batch: Option<string>,
    concurrent: nat,
    stopOnError: bool,
    clipboard: bool,
    watch: bool,
    range: Option<string>,
    folder: Option<string>,
    resume: bool,
    verbose: nat,
    quiet: bool,
    logFile: bool,
    logJson: bool,
    config: Option<string>,
    command: Option<Command>)

  const DEFAULT_QUALITY: string := "best"
  const DEFAULT_CONCURRENT: nat := 3
  const DEFAULT_HISTORY_LIMIT: nat := 10

  /** The largest count a `u8` occurrence counter holds; further `-v` flags saturate there. */
  const MAX_VERBOSE: nat := 255

  /** The record parsed from no options at all: quality "best", three downloads at a time. */
  function DefaultCli(): (c: Cli)
    ensures c.quality == Some(DEFAULT_QUALITY) && c.concurrent == DEFAULT_CONCURRENT && c.verbose == 0
    ensures c.url.None? && c.batch.None? && c.command.None? && !c.interactive && !c.quiet
  {
    Cli(None, None, Some(DEFAULT_QUALITY), false, false, false, false, None, DEFAULT_CONCURRENT, false,
        false, false, None, None, false, 0, false, false, false, None, None)
  }

  /** `-v` given `n` times: the count of occurrences, saturating at the counter's limit. */
  function VerboseCount(n: nat): (v: nat)
    ensures v <= MAX_VERBOSE
    ensures n <= MAX_VERBOSE ==> v == n
  {
    if n <= MAX_VERBOSE then n else MAX_VERBOSE
  }

  const NO_URL_MESSAGE: string := "No URL provided. Use --help for usage information."
  const QUIET_VERBOSE_MESSAGE: string := "Cannot use both --quiet and --verbose flags"

  /** Something to act on was given: a URL, a batch file, a subcommand or the interactive flag. */
  predicate HasTarget(c: Cli)
  {
    c.url.Some? || c.batch.Some? || c.command.Some? || c.interactive
  }

  /**
   * `Cli::validate`: rejects a run with nothing to act on, then one both quiet and verbose.
   * The clipboard and watch flags are not consulted.
   */
  function Validate(c: Cli): (r: Result<(), string>)
    ensures r.Ok? <==> HasTarget(c) && !(c.quiet && c.verbose > 0)
    ensures !HasTarget(c) ==> r == Err(NO_URL_MESSAGE)
    ensures HasTarget(c) && c.quiet && c.verbose > 0 ==> r == Err(QUIET_VERBOSE_MESSAGE)
  {
    if !HasTarget(c) then Err(NO_URL_MESSAGE)
    else if c.quiet && c.verbose > 0 then Err(QUIET_VERBOSE_MESSAGE)
    else Ok(())
  }

  /** The clipboard and watch modes alone do not pass the check, so the run never reaches them. */
  lemma {:induction false} ClipboardAloneRejected(c: Cli)
    requires c == DefaultCli().(clipboard := true) || c == DefaultCli().(watch := true)
    ensures Validate(c) == Err(NO_URL_MESSAGE)
  {
  }

  /** With nothing to act on and quiet and verbose both set, the missing-target message wins. */
  lemma {:induction false} MissingTargetWins(c: Cli)
    requires !HasTarget(c) && c.quiet && c.verbose > 0
    ensures Validate(c) == Err(NO_URL_MESSAGE)
  {
  }
}
