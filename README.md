# stash: a Dafny model of the yt-dlp front end

stash wraps the `yt-dlp` command-line tool. It downloads single videos, playlists and
batch files of URLs, keeps a download history, and offers an interactive terminal
interface. The repository is halfway through a refactor, so two source trees coexist and
do not always agree:

- **Layered tree:** `src/core`, `src/infra`, `src/shared`, `src/cli` and `src/tui`.
- **Flat tree:** `src/*.rs` and `src/ui`.

This project models the sequential logic of both trees and proves properties of that model.
The model does not run anything. The tool's runs, the clock, the file system, the
environment and the clipboard are all inputs.

| module (file) | models |
|---|---|
| `Wrappers` (wrappers.dfy) | `Option` and `Result` |
| `Shared` (shared.dfy) | the error type and the constants of `src/shared` |
| `ErrorText` (error_text.dfy) | the `Display` text of each error kind |
| `Text`, `Sequences` (text.dfy, sequences.dfy) | the Rust standard-library behaviour the core relies on: `trim`, `split`, `to_string`, `parse`, byte lengths of UTF-8 text, stable `sort_by`, `take` and `filter` |
| `Utils` (utils.dfy) | URL validation, `format_duration` and `format_bytes` |
| `AppConfig` (config.dfy) | configuration defaults, environment overrides and the merge of command-line values |
| `CliArgs` (cli.dfy) | the parsed arguments, their defaults and `Cli::validate` |
| `Logger` (logger.dfy) | level selection, `LoggerConfig` and its builders, the log directory |
| `HistoryStore` (history.dfy) | the history as a class over a `seq` of entries, with its queries, pruning and CSV export |
| `Batch` (batch.dfy) | the batch downloader as a class over a `seq` of items: loading, duplicate marking, running the items and the statistics |
| `Downloader`, `ProgressParser` (downloader.dfy, progress.dfy) | the layered driver: argument vectors, the per-line progress parser, exit-status handling, the newest-file search and the metadata decoding defaults |
| `FlatDownloader` (flat_downloader.dfy) | the flat driver, which reuses the layered pieces and returns the output directory |
| `DownloadCommand`, `InfoCommand`, `PlaylistCommand` (download_command.dfy, info_command.dfy, playlist_command.dfy) | the three subcommands |
| `Playlist` (playlist.dfy) | playlist URL and id recognition, listing decoding, range selection and the download loop |
| `MainPolicy` (main_policy.dfy) | the entry point's mode precedence, log level, concurrency override, duplicate default and playlist routing |
| `SpinnerWidgets`, `ColorCycleWidgets`, `ProgressBar` (spinner.dfy, color_cycle.dfy, progress_bar.dfy) | the tick-driven widgets as classes, and the progress-bar formatters |
| `TuiEvents` (events.dfy) | key events and the quit and back predicates |
| `TuiApp`, `TuiRunner` (app.dfy, runner.dfy) | the layered state machine: a function per transition, the `App` class tied to those functions, and the event dispatcher |
| `FlatApp`, `FlatTui` (flat_app.dfy, flat_tui.dfy) | the flat state machine and its dispatcher with the simulated fetch and download |
| `Clipboard` (clipboard.dfy) | URL extraction from clipboard text and the change-detecting watcher |

State the source changes in place is modelled as Dafny classes: the history, the batch
table, the two `App`s, the widgets and the clipboard watcher. Their methods are proved
against specification functions on values. The overlay's `Box<AppState>` is a recursive
datatype.

The code and its own descriptions disagree in a few places. The model follows the code:

- `download_all` counts skipped items as successful, and failed ones too, unless
  `stop_on_error` is set. So successful + failed always equals the total.
- The error from `download_with_progress` carries only the exit code. Stderr is logged,
  never captured.
- The layered `AppState` has no `Welcome` variant and no `go_to_welcome`, but
  `src/tui/runner.rs` uses both. The model adds them.
- The flat `src/ui/app.rs` has no `Help` or `Settings` state, and none of `go_to_help`,
  `go_to_settings`, `back_from_overlay`, `select_*_setting` or `tick`, but `src/tui.rs`
  calls them all. The model adds them as the layered tree defines them, and `tick`
  changes nothing.
- `batch.rs` and `main.rs` read `concurrent_downloads` and `skip_duplicates`, which the
  `Config` record as written lacks. They are optional fields here, unset by default.
- `main.rs` reads an `examples` flag that is not a field of `Cli`. It is a separate input.

## Model

| member | source | states |
|---|---|---|
| CliArgs.DefaultCli | src/cli.rs:8-90 | with no options the record holds quality "best", three concurrent downloads, a verbosity of zero, and no URL, batch file, subcommand, TUI or quiet flag |
| CliArgs.VerboseCount | src/cli.rs:68-70 | the `-v` count equals the number of occurrences and saturates at the 255 a `u8` holds |
| CliArgs.Validate | src/cli.rs:128-138 | accepted exactly when a URL, batch file, subcommand or the TUI flag is given and quiet is not combined with verbose; the missing-target message comes first, the quiet/verbose message second |
| CliArgs.ClipboardAloneRejected | src/cli.rs:128-131 | `--clipboard` or `--watch` on its own is refused with the missing-URL message |
| CliArgs.MissingTargetWins | src/cli.rs:129-135 | with no target and quiet and verbose both set, the missing-URL message is the one reported |
| DownloadCommand.Plan | src/cli/commands/download.rs:11-32 | nothing is done exactly when the URL is already in the history and resume was not asked for; otherwise the download continues partial files exactly when resuming |
| DownloadCommand.DownloadSingleUrl | src/cli/commands/download.rs:8-68 | a known URL without resume returns Ok and leaves the history unchanged; otherwise the arguments passed to yt-dlp are the download's (with `--continue` iff resuming); a failed download returns its error and records nothing; a successful one appends exactly one entry (fetched title or the URL, file size or 0, the quality, "mp3" or "mp4") and returns the save's outcome |
| ErrorText.DisplayShowsMessage | src/shared/error.rs:3-43 | every error kind that carries a message displays as its fixed prefix followed by the whole message, and `Other` displays the message alone |
| ErrorText.DisplayDistinguishesMessages | src/shared/error.rs:3-43 | two errors of kinds with the same prefix and equal display text carry the same message |
| TuiEvents.DefaultEventHandler | src/tui/events.rs:38-42 | the default handler polls with a 16 ms tick |
| TuiEvents.NextEvent | src/tui/events.rs:24-35 | a key, paste or resize read from the terminal is passed on unchanged; a quiet poll and every other kind of terminal event become a tick, and only those do |
| TuiEvents.QuitKeysExactly | src/tui/events.rs:44-51 | a key quits exactly when it is `q` or `Q` with no modifier or `c` with Control alone |
| TuiEvents.NotQuitKeys | src/tui/events.rs:44-51 | Ctrl+Q, a plain `c` and a shifted `Q` do not quit |
| TuiEvents.BackKeyIgnoresModifiers | src/tui/events.rs:53-55 | Escape is the back key whatever the modifiers, and no other key is |
| Logger.LevelFromVerbosity | src/infra/logger.rs:176-183 | verbosity 0 gives INFO, 1 gives DEBUG, 2 or more gives TRACE, each in both directions |
| Logger.LevelMonotone | src/infra/logger.rs:176-183 | more `-v` flags never choose a less verbose level |
| Logger.WithLevel | src/infra/logger.rs:33-36 | sets the level and leaves every other field as it was |
| Logger.WithFileLogging | src/infra/logger.rs:38-41 | sets file logging and leaves every other field as it was |
| Logger.WithJsonFormat | src/infra/logger.rs:43-46 | sets the JSON format flag and leaves every other field as it was |
| Logger.WithLogDir | src/infra/logger.rs:48-51 | sets the log directory and leaves every other field as it was |
| Logger.WithTuiMode | src/infra/logger.rs:53-56 | sets interface mode and leaves every other field as it was |
| Logger.BuildersCommute | src/infra/logger.rs:33-56 | builders of different fields commute, and setting the same level twice is setting it once |
| Logger.GetLogDir | src/infra/logger.rs:58-70 | a configured directory is used whenever there is one; otherwise `logs` under the platform data directory, or "./logs" when the platform has none |
| Logger.DefaultLoggerIs | src/infra/logger.rs:16-26 | the default configuration is INFO with no file or JSON logging, no directory and not in interface mode |
| FlatDownloader.FlatOutcome | src/downloader.rs:69-190 | succeeds exactly when the tool ran and exited successfully, and then returns the output directory itself |
| FlatDownloader.DownloadWithResume | src/downloader.rs:64-190 | a directory that cannot be created fails with an I/O error before the tool runs; otherwise the tool gets the same argument vector as the layered downloader (URL last, `--continue` iff resuming); spawn and wait failures and a failed exit give their messages; success returns the output directory |
| AppConfig.Config.constructor | src/config.rs:17-33 | a new configuration holds the defaults: "./downloads", "best", no audio-only, level "info", no file or JSON logging |
| AppConfig.Config.FromValue | src/config.rs:35-46 | a configuration read from a file holds exactly the values read |
| AppConfig.Config.MergeWithCli | src/config.rs:74-94 | the new state is the merge of the old one with the command-line values, field by field |
| AppConfig.LoadWithEnvOverrides | src/config.rs:48-72 | a fresh configuration holding the defaults with each variable present applied |
| AppConfig.DefaultsAre | src/config.rs:17-28 | the default values, as the module's test states them |
| AppConfig.MergeOverridesWhenGiven | src/config.rs:75-81 | a given output directory or quality replaces the configured one, and an absent one keeps it |
| AppConfig.MergeOnlySwitchesOn | src/config.rs:83-93 | the three flags end up on exactly when configured or given, so the merge never switches a flag off, and the log level and the other fields are untouched |
| AppConfig.MergeIdempotent | src/config.rs:74-94 | merging the same command-line values twice is merging them once |
| AppConfig.MergeExample | src/config.rs:133-148 | the merge in the module's test: directory, quality, audio-only and file logging all land |
| AppConfig.EnvOverrides | src/config.rs:48-72 | the directory and level variables are copied as they are; each logging flag is on exactly when its variable is "true" in any case or "1"; quality and audio-only keep their defaults |
| AppConfig.EnvFlagExamples | src/config.rs:61-68 | "TRUE", "True" and "1" switch a flag on; "yes" and "0" do not |
| ColorCycleWidgets.ColorAt | src/tui/widgets/color_cycle.rs:29-32 | the colour at a frame is the one at index frame / 4, clamped to the last colour, so the index is always in bounds |
| ColorCycleWidgets.BannerColorsHeldFourFrames | src/tui/widgets/color_cycle.rs:13-32 | on the banner cycle each colour is shown for four consecutive frames, in order, starting with Cyan at frame 0 |
| ColorCycleWidgets.PulseHighlighted | src/tui/widgets/color_cycle.rs:64-72 | lit on two frames of three in the first half of the pulse and on every even frame in the second half |
| ColorCycleWidgets.ColorCycle.constructor | src/tui/widgets/color_cycle.rs:10-23 | starts at frame 0 with the seven banner colours |
| ColorCycleWidgets.ColorCycle.Tick | src/tui/widgets/color_cycle.rs:25-27 | the frame advances by one modulo four times the number of colours, keeps the frame in range and leaves the colours alone |
| ColorCycleWidgets.ColorCycle.CurrentColor | src/tui/widgets/color_cycle.rs:29-32 | always one of the cycle's colours |
| ColorCycleWidgets.ColorCycle.Reset | src/tui/widgets/color_cycle.rs:34-36 | the frame goes back to 0 and the colours stay |
| ColorCycleWidgets.PulsingSelection.constructor | src/tui/widgets/color_cycle.rs:52-57 | starts at frame 0 of a twenty-frame pulse |
| ColorCycleWidgets.PulsingSelection.Tick | src/tui/widgets/color_cycle.rs:59-61 | the frame advances by one modulo the pulse length and stays below it |
| ColorCycleWidgets.PulsingSelection.Reset | src/tui/widgets/color_cycle.rs:81-83 | the frame goes back to 0 and the pulse length stays |
| ColorCycleWidgets.PulsePattern | src/tui/widgets/color_cycle.rs:64-72 | over one twenty-frame pulse the selection is lit on frames 1, 2, 4, 5, 7, 8, 10, 12, 14, 16 and 18 and on no others |
| ProgressBar.BarUnit | src/tui/widgets/progress_bar.rs:31-45 | GB from 1024³ bytes on, MB from 1024², KB from 1024, else B, each threshold in both directions |
| ProgressBar.FormatBarBytes | src/tui/widgets/progress_bar.rs:31-45 | the value times the chosen unit's size is the byte count; below one KB the count itself with unit "B" |
| ProgressBar.FormatBarSpeed | src/tui/widgets/progress_bar.rs:47-58 | MB/s from 1024² bytes per second on, KB/s from 1024, else B/s, and the value times the unit's size is the rate |
| ProgressBar.SpeedUnitMonotone | src/tui/widgets/progress_bar.rs:51-57 | a faster rate is never shown in a smaller unit |
| ProgressBar.BarUnitMonotone | src/tui/widgets/progress_bar.rs:36-44 | a larger byte count never gets a smaller unit |
| ProgressBar.BarAgreesWithGeneralFormat | src/tui/widgets/progress_bar.rs:31-45 | below one TB the bar picks the same unit as the general byte formatter and its value lies in [1, 1024) from KB on |
| ProgressBar.BarDurationFields | src/tui/widgets/progress_bar.rs:60-70 | three clock fields exactly from one hour on, minutes and seconds below 60, the fields recombine to the input, and reading the clock back gives the seconds |
| SpinnerWidgets.Elapsed | src/tui/widgets/spinner.rs:46 | the time since an instant, zero when the instant lies in the future (saturating `duration_since`) |
| SpinnerWidgets.NextFrame | src/tui/widgets/spinner.rs:47 | the next frame index wraps to 0 after the last and otherwise adds one |
| SpinnerWidgets.AdvanceIsModular | src/tui/widgets/spinner.rs:44-53 | k advancing ticks move the frame k places around the cycle, modulo the frame count |
| SpinnerWidgets.FullCycleReturns | src/tui/widgets/spinner.rs:44-53 | as many advancing ticks as there are frames bring the spinner back to its frame |
| SpinnerWidgets.BrailleFrameChanges | src/tui/widgets/spinner.rs:16 | no two consecutive braille frames are equal, so an advancing tick changes what the spinner shows |
| SpinnerWidgets.Spinner.constructor | src/tui/widgets/spinner.rs:14-31 | the ten braille frames, frame 0, 80 ms per frame, last update now (`new` and `dots` alike) |
| SpinnerWidgets.Spinner.Line | src/tui/widgets/spinner.rs:34-41 | the four line frames, frame 0, 100 ms per frame |
| SpinnerWidgets.Spinner.Tick | src/tui/widgets/spinner.rs:44-53 | reports a change exactly when a frame duration has passed; then the frame advances with wrap-around and the update time becomes now, otherwise nothing changes |
| SpinnerWidgets.Spinner.Frame | src/tui/widgets/spinner.rs:56-58 | always one of the spinner's frames |
| SpinnerWidgets.Spinner.Reset | src/tui/widgets/spinner.rs:61-64 | back to frame 0 with the update time now |
| SpinnerWidgets.BlinkingCursor.constructor | src/tui/widgets/spinner.rs:82-88 | visible, blinking every 530 ms |
| SpinnerWidgets.BlinkingCursor.Tick | src/tui/widgets/spinner.rs:90-99 | toggles visibility and reports a change exactly when a blink interval has passed |
| SpinnerWidgets.BlinkingCursor.Show | src/tui/widgets/spinner.rs:105-113 | visible again with the blink time now (`show` and `reset` alike) |
| SpinnerWidgets.CheckmarkAnimation.constructor | src/tui/widgets/spinner.rs:133-141 | four frames starting with an empty one, at frame 0, not completed, 100 ms per frame |
| SpinnerWidgets.CheckmarkAnimation.Start | src/tui/widgets/spinner.rs:143-147 | back to frame 0, not completed, update time now |
| SpinnerWidgets.CheckmarkAnimation.Tick | src/tui/widgets/spinner.rs:149-167 | a completed animation never changes; a due tick before the last frame advances and reports a change; a due tick on the last frame completes without reporting one; the frame never moves back |
| SpinnerWidgets.CheckmarkAnimation.Frame | src/tui/widgets/spinner.rs:169-171 | always one of the animation's frames |
| MainPolicy.LogLevel | src/main.rs:48-52 | quiet logs errors only; otherwise the level follows the verbosity count |
| MainPolicy.LoggerFor | src/main.rs:54-57 | the installed logger is the default one with the chosen level and the two logging flags, nothing else changed |
| MainPolicy.SourceFor | src/main.rs:84-97 | an explicit `--config` file first, then the default file if the platform has a location and it exists, and the environment exactly when neither applies |
| MainPolicy.Configured | src/main.rs:99-111 | the configuration after the command line is the merge, with `--concurrent` overriding the concurrency only when positive and nothing else touched |
| MainPolicy.SkipsDuplicates | src/main.rs:172-174 | a batch run skips known URLs unless the configuration says `false` outright |
| MainPolicy.UrlMode | src/main.rs:208-221 | `--info` wins; otherwise the playlist path is taken exactly for `--playlist` or a playlist-shaped URL, with the range and folder passed on; otherwise a single download with the resume flag |
| MainPolicy.Run | src/main.rs:38-227 | where a run ends is the function `RunOutcome` of the command line and the inputs, as the properties below describe it |
| MainPolicy.EarlyExits | src/main.rs:41-97 | `--examples` ends the run before anything; then a failed validation (as a configuration error), then a missing tool, then a configuration file that cannot be read stop it, in that order |
| MainPolicy.DispatchedState | src/main.rs:99-123 | a run that reaches a mode got past validation, the tool check and the load, starts from the loaded and merged configuration, and starts from the loaded history or, when loading failed, an empty one |
| MainPolicy.NoUrlOnlyFromValidation | src/main.rs:222-226 | the final "No URL provided" error is unreachable once validation has passed |
| MainPolicy.ClipboardWinsOverUrl | src/main.rs:189-205 | with `--clipboard`, an empty clipboard stops the run even when a URL was given, and a valid clipboard URL is used in place of the given one |
| MainPolicy.PlaylistDetection | src/main.rs:207-219 | for a given URL, the playlist path is taken exactly when the URL is valid, `--info` is absent and `--playlist` is set or the URL has a playlist shape |
| MainPolicy.SubcommandFirst | src/main.rs:120-123 | a subcommand is dispatched whatever else the command line holds |
| Clipboard.OpenManager | src/clipboard.rs:11-18 | opening succeeds exactly when the platform clipboard opens; otherwise the platform's message behind "Failed to initialize clipboard: " |
| Clipboard.GetText | src/clipboard.rs:20-25 | the clipboard text, or the platform's message behind "Failed to read clipboard: " |
| Clipboard.UrlIn | src/clipboard.rs:40-47 | a text holds a URL exactly when its trimmed form passes validation, and the URL is that trimmed form |
| Clipboard.GetYoutubeUrl | src/clipboard.rs:37-51 | a URL is found exactly when the read succeeded and its trimmed text is a valid YouTube URL, and it is that trimmed text |
| Clipboard.GetClipboardUrl | src/clipboard.rs:108-116 | a URL is found exactly when the clipboard opens and holds one, and it is the one `get_youtube_url` finds |
| Clipboard.WhitespaceAroundUrl | src/clipboard.rs:40-43 | a valid URL surrounded by whitespace is still found, without the whitespace |
| Clipboard.ClipboardWatcher.constructor | src/clipboard.rs:64-72 | remembers the current content, or "" when it cannot be read |
| Clipboard.ClipboardWatcher.CheckForNewUrl | src/clipboard.rs:74-90 | the new memory and the report are those of one poll: a failed read or unchanged content reports nothing and keeps the memory; changed content is remembered untrimmed and reported, trimmed, when it is a valid URL |
| Clipboard.ClipboardWatcher.WatchLoop | src/clipboard.rs:92-105 | over a finite run of polls the memory and the reported URLs, in order, are those of the polls one after another |
| Clipboard.Poll | src/clipboard.rs:74-90 | one poll as a function: nothing when the read fails or the content is unchanged, else the new content and the URL it holds |
| Clipboard.Watch | src/clipboard.rs:98-104 | a run of polls never reports more URLs than there were polls, and every URL reported is a valid YouTube URL |
| Clipboard.WatchRemembersLastRead | src/clipboard.rs:74-90 | after a run of polls the memory is the content of the last read that succeeded, or the start when none did |
| Clipboard.SameContentOnce | src/clipboard.rs:77-85 | the same content read again and again is reported at most once, and never when it was already there at the start |
| PlaylistCommand.ParseRange | src/commands/playlist.rs:19-43 | a range that does not split into exactly two pieces at '-' gets the usage message; two pieces that are not both numbers get "Invalid range format"; a parsed range is two numbers joined by one dash |
| PlaylistCommand.RangeRoundTrip | src/commands/playlist.rs:20-27 | every range written as two decimal numbers and a dash is read back as those two numbers |
| PlaylistCommand.RangeNeedsOneDash | src/commands/playlist.rs:20-21 | a range without a dash, or with two or more, gets the usage message |
| PlaylistCommand.RangeSideNotNumber | src/commands/playlist.rs:22-27 | a side that is not a number, the empty side included, makes the range invalid |
| PlaylistCommand.FetchedAllSelected | src/commands/playlist.rs:45-58 | every video of a fetched playlist is selected and there is at least one, so downloading the whole playlist never finds nothing selected |
| PlaylistCommand.AllSelected | src/playlist.rs:159-163 | selecting from videos that are all selected keeps them all, in order |
| PlaylistCommand.HandlePlaylistDownload | src/commands/playlist.rs:7-69 | a malformed range is refused before anything runs; with a range the range download's error or paths stand; without one the fetch's error stands, and after a fetch the command succeeds with the paths of the successful downloads; every path is the output directory |
| Playlist.PlaylistPageExample | src/playlist.rs:238-242 | a playlist page is a playlist URL |
| Playlist.WatchInPlaylistExample | src/playlist.rs:243-245 | a watch page carrying a list parameter is a playlist URL |
| Playlist.LoneVideoExample | src/playlist.rs:246-248 | a watch page without a list parameter is not a playlist URL |
| Playlist.PlaylistPageIsPlaylistUrl | src/playlist.rs:43-55 | every URL holding "youtube.com/playlist?list=" is a playlist URL |
| Playlist.FirstListMatch | src/playlist.rs:217 | the leftmost position from a start where `[?&]list=` followed by an id character matches, or none when it matches nowhere after the start |
| Playlist.FirstPlaylistMatch | src/playlist.rs:218 | a position from a start where `playlist\?list=` followed by an id character matches, or none when it matches nowhere after the start |
| Playlist.IdRun | src/playlist.rs:217-225 | the captured id is the maximal run of id characters (letters, digits, `_`, `-`) from the given position |
| Playlist.ExtractPlaylistId | src/playlist.rs:215-232 | an extracted id is non-empty and made of id characters; when the first pattern matches, the id is the run after its leftmost match |
| Playlist.ExtractPlaylistIdExactly | src/playlist.rs:215-232 | an id is found exactly when some "?list=" or "&list=" is followed by an id character, and it is the run after the leftmost one; the second pattern never decides |
| Playlist.PlaylistPageIdExample | src/playlist.rs:253-254 | the id of a playlist page is read from its list parameter |
| Playlist.WatchInPlaylistIdExample | src/playlist.rs:256-257 | the id of a watch page in a playlist is read from its `&list=` parameter |
| Playlist.LoneVideoIdExample | src/playlist.rs:259-260 | a watch page without a list parameter has no playlist id |
| Playlist.VideoOf | src/playlist.rs:103-131 | a line gives a video exactly when it has a string "url", or no "url" and a string "webpage_url", or otherwise an "id"; the URL is that string or the watch URL of the id; the video is numbered after its line (from 1) and selected, its title is the line's "title" string or "Unknown", its duration the line's "duration" when an unsigned integer |
| Playlist.VideosOf | src/playlist.rs:89-133 | no more videos than lines, each numbered within the line count and selected |
| Playlist.VideosFromLines | src/playlist.rs:89-131 | each video comes from one line: it is what that line describes, numbered after it |
| Playlist.VideosInLineOrder | src/playlist.rs:89-131 | the videos keep the order of their lines: their indices strictly increase |
| Playlist.InfoOf | src/playlist.rs:135-151 | a listing fails with "No videos found in playlist" exactly when no line describes a video; otherwise it holds those videos and their count, the id and uploader of line 0, and its title or "Playlist " and the id when the title is empty |
| Playlist.FetchPlaylistInfo | src/playlist.rs:57-152 | a URL that is not a playlist URL is refused and the tool is not run; a start failure is an I/O error; a failed run carries its stderr; a successful one yields the playlist the listing describes |
| Playlist.ListingInfo | src/playlist.rs:84-151 | the listing loop yields the playlist the listing describes |
| Playlist.NewPlaylistDownloader | src/playlist.rs:31-36 | a downloader for the directory and quality, with no folder |
| Playlist.WithFolder | src/playlist.rs:38-41 | records the folder and leaves the downloader unchanged |
| Playlist.SelectRange | src/playlist.rs:207-209 | each video is selected exactly when its index lies in [start, end]; nothing else about it changes and the count stays |
| Playlist.SelectedMembers | src/playlist.rs:159-163 | the selected videos are exactly those of the list that are marked selected |
| Playlist.SuccessPaths | src/playlist.rs:179-191 | no more paths than videos, and every path is the output directory the flat downloader returns |
| Playlist.DownloadPlaylist | src/playlist.rs:154-196 | nothing selected is "No videos selected for download"; otherwise the selected videos are downloaded in order, a failure not stopping the rest, and the paths of the successes are returned |
| Playlist.SelectedLoop | src/playlist.rs:159-163 | the filter keeps the selected videos, in order |
| Playlist.DownloadRange | src/playlist.rs:198-212 | the outcome is the fetch's error, or the download of the fetched videos selected by the range |
| Playlist.MarkRange | src/playlist.rs:207-209 | marks each video selected exactly when its index lies in the range, keeping the count |
| Playlist.RangeSelectsIndices | src/playlist.rs:207-211 | every video a range selects has its index in [start, end], and every fetched video with such an index is selected |
| Utils.MatchesFrom | src/utils.rs:14-20 | trying the patterns from one on succeeds exactly when one of the remaining patterns matches |
| Utils.ValidateYoutubeUrl | src/utils.rs:6-31 | accepted exactly when the URL has one of the four shapes (`http` or `https`, optional `www.`, a watch, short-link, playlist or shorts path, then at least one `[\w-]` character); a rejection is InvalidUrl ending in "Got: " and the input |
| Utils.RejectedHost | src/utils.rs:7-12 | no pattern matches when the character after the scheme is neither `y` nor `w` |
| Utils.RejectedScheme | src/utils.rs:7-12 | no pattern matches an input that does not begin with `h` |
| Utils.ValidateWatchExamples | src/utils.rs:109-110 | watch URLs with and without `www.` are accepted |
| Utils.ValidateShortLinkExample | src/utils.rs:111 | a short link is accepted |
| Utils.ValidatePlaylistExample | src/utils.rs:112 | a playlist page is accepted |
| Utils.ValidateShortsExample | src/utils.rs:113 | a shorts URL is accepted |
| Utils.ValidateRejectsExamples | src/utils.rs:114-115 | another host and a text that is no URL are rejected |
| Utils.Pow1024 | src/utils.rs:83-86 | the unit sizes are powers of 1024, never zero |
| Utils.FormatBytes | src/utils.rs:78-89 | the printed value times the chosen unit's size is the byte count, the value is below 1024 unless the unit is TB, and at least 1 from KB on |
| Utils.ByteSizeBounds | src/utils.rs:83-86 | the chosen unit is the one whose range holds the byte count: 1024^k at most the count, and the count below 1024^(k+1) unless TB |
| Utils.PowMonotone | src/utils.rs:83-86 | larger units are never smaller |
| Utils.FormatDurationRoundTrip | src/utils.rs:91-101 | the duration text has three fields exactly from one hour on, else two, and reading the fields back gives the seconds |
| Utils.FormatClockRoundTrip | src/utils.rs:96-100 | the clock text has three fields exactly when there are hours and reads back to hours·3600 + minutes·60 + seconds |
| Utils.DurationFields | src/utils.rs:92-94 | hours, minutes and seconds recombine to the input, minutes and seconds are below 60, and there are hours exactly from 3600 seconds on |
| Utils.FormatDurationExamples | src/utils.rs:127-131 | 0, 65 and 3661 seconds print as "00:00", "01:05" and "01:01:01" |
| Utils.ByteSizeUnique | src/utils.rs:78-89 | a byte count has one rendering only: the unit and the value the loop stops at are determined by the count |
| Utils.FormatBytesExamples | src/utils.rs:118-124 | 0 bytes are 0 B, and 1024, 1024² and 1024³ bytes are exactly 1 KB, 1 MB and 1 GB |
| Batch.NewItem | src/core/batch.rs:30-41 | a new item is pending, with no title, no output path, progress 0 and size 0 |
| Batch.NewItems | src/core/batch.rs:99-102 | one new item per URL, in the URLs' order |
| Batch.NewItemsSnoc | src/core/batch.rs:100-102 | appending one more URL appends exactly its new item |
| Batch.ConcurrentLimit | src/core/batch.rs:52-57 | the configured limit, 3 when unset, clamped into 1..10: stays put inside the range and goes to the nearer bound outside it |
| Batch.Contribution | src/core/batch.rs:77-93 | a kept line contributes its trimmed text, any other line nothing |
| Batch.BatchUrlsSnoc | src/core/batch.rs:77-93 | one more line of the file adds exactly that line's contribution |
| Batch.ReadUrls | src/core/batch.rs:76-93 | the loop over the file's lines yields exactly the specification's list of kept, trimmed lines |
| Batch.ReadLineStep | src/core/batch.rs:78-92 | a trimmed line that is not empty, no comment and a valid URL is pushed; any other line leaves the list as it was |
| Batch.BatchUrlsFromKeptLines | src/core/batch.rs:77-93 | every URL read comes from a kept line of the file, trimmed, and there are no more URLs than lines |
| Batch.KeptLinesInBatchUrls | src/core/batch.rs:77-93 | conversely, every kept line's trimmed text is among the URLs read |
| Batch.BatchUrlsValid | src/core/batch.rs:80-88 | every URL read is a valid URL, not empty and not a comment |
| Batch.BatchUrlsAppend | src/core/batch.rs:77-93 | the URLs keep file order: two pieces of a file contribute one after the other |
| Batch.FirstInvalidAt | src/core/batch.rs:111-114 | an invalid URL after a run of valid ones is the first invalid URL |
| Batch.FirstInvalid | src/core/batch.rs:111-114 | the index found is an invalid URL with only valid ones before it; none found means all are valid |
| Batch.DuplicateUrlsExactly | src/core/batch.rs:120-132 | a URL is reported as a duplicate exactly when it is an item's URL that the history holds |
| Batch.SkippedDuplicates | src/core/batch.rs:134-144 | the table keeps its length and each item is marked on its own |
| Batch.SkippedDuplicatesExactly | src/core/batch.rs:134-144 | only statuses change; an item ends Skipped exactly when the history holds its URL or it was Skipped already; marking twice is marking once |
| Batch.AfterDownload | src/core/batch.rs:226-268 | after a success the item is Complete with the output path, 100 % progress, the file's size (0 when unknown) and the title (the URL when the fetch failed); after a failure only the status changes, to Failed with the error's text |
| Batch.RecordFor | src/core/batch.rs:247-254 | the history entry holds the URL, the title, the path, the size, the configured quality and "mp3" for audio-only downloads, else "mp4" |
| Batch.OutcomesAt | src/core/batch.rs:226-268 | item k's entry in `Outcomes` is the outcome its own run reports |
| Batch.Settle | src/core/batch.rs:213-268 | the URL stays; a Skipped item is returned unchanged; any other item ends Complete exactly when its outcome is a success and Failed exactly when it is an error; every status is settled and only a Skipped item is Skipped |
| Batch.SettledUpTo | src/core/batch.rs:157-170 | settling a prefix keeps the table's length |
| Batch.SettledUpToRest | src/core/batch.rs:157-170 | the items not yet reached are untouched |
| Batch.SettledUpToAll | src/core/batch.rs:157-170 | every item reached is settled with its own outcome and run |
| Batch.ItemResult | src/core/batch.rs:256-268 | an error result carries the download's own error |
| Batch.ItemResults | src/core/batch.rs:170 | one result per item reached |
| Batch.ItemResultsAll | src/core/batch.rs:157-170 | result k is item k's own result |
| Batch.EachStep | src/core/batch.rs:157-170 | settling the next item extends the settled prefix and the results by exactly that item |
| Batch.RecordOf | src/core/batch.rs:241-255 | at most one record; one exactly when the item was not Skipped and its download succeeded, and then it is that download's `RecordFor` |
| Batch.SettleAll | src/core/batch.rs:146-198 | a fully settled table keeps its URLs, has only settled statuses and leaves Skipped items untouched |
| Batch.BatchRecords | src/core/batch.rs:241-255 | the items reached add at most one entry each |
| Batch.BatchRecordsHas | src/core/batch.rs:241-255 | every item that was downloaded and found a file has its record among the new entries |
| Batch.BatchRecordsFrom | src/core/batch.rs:241-255 | every new entry is the record of one of the items |
| Batch.BatchRecordsStep | src/core/batch.rs:241-255 | one more item appends exactly its own record |
| Batch.ErrorCount | src/core/batch.rs:175-182 | no more errors than results |
| Batch.ErrorsAreFailures | src/core/batch.rs:175-188 | when each result is an error exactly under stop-on-error for a failed item, the errors count the failed items (none without stop-on-error) and the Skipped items are among the successes |
| Batch.DownloadSummary | src/core/batch.rs:170-188 | after the download phase every item is settled with its own outcome, URLs and Skipped items stay, and the error count is the failed items' count under stop-on-error and 0 otherwise, with the Skipped items among the successes |
| Batch.CountOf | src/core/batch.rs:287-302 | a status count never exceeds the number of items |
| Batch.CountOfSnoc | src/core/batch.rs:287-302 | one more item raises its own class's count by one and no other |
| Batch.CountsBounded | src/core/batch.rs:283-314 | the status classes are disjoint, so their four counts add up to no more than the items |
| Batch.BatchDownloader.constructor | src/core/batch.rs:52-66 | an empty table, the given configuration, history and stop flag, and the clamped limit |
| Batch.BatchDownloader.LoadFromFile | src/core/batch.rs:68-106 | an unreadable file is an I/O error and a file with no kept line a configuration error, and neither changes the table; otherwise one pending item per kept line is appended in file order |
| Batch.BatchDownloader.AppendNew | src/core/batch.rs:99-102 | a pending item per URL is appended, in order, after the existing ones |
| Batch.BatchDownloader.AddUrls | src/core/batch.rs:108-118 | all URLs are appended when all are valid; otherwise the first invalid URL's error is returned and only the URLs before it were appended |
| Batch.BatchDownloader.CheckDuplicates | src/core/batch.rs:120-132 | returns the items' URLs the history holds, in item order |
| Batch.BatchDownloader.SkipDuplicates | src/core/batch.rs:134-144 | the table becomes the marking of the old table |
| Batch.BatchDownloader.DownloadItem | src/core/batch.rs:200-276 | a Skipped item is left alone and succeeds; any other item ends Complete and in the history, or Failed; no other item changes; the error comes back only under stop-on-error |
| Batch.BatchDownloader.SettleItem | src/core/batch.rs:159-167 | one item's task: the item becomes what `Settle` makes of it with its outcome and no other item changes, the history grows by exactly that item's record (if any), and the result is what `ItemResult` says |
| Batch.BatchDownloader.DownloadAll | src/core/batch.rs:146-198 | successes and failures add up to the items; without stop-on-error nothing counts as failed, with it the failures are the failed items; every item i ends as `Settle` makes it from its old state and the outcome of its own run (so URLs stay, every status is settled, Skipped items are untouched and counted among the successes); the history ends as its old entries followed by the records of the items that were downloaded and found a file, in index order; a failing history save is the result's error |
| Batch.BatchDownloader.DownloadEach | src/core/batch.rs:157-170 | the download phase: the table, the results and the history are those of settling the items one after the other, in index order |
| Batch.BatchDownloader.GetProgress | src/core/batch.rs:283-314 | the number of items, the four status counts, which add up to no more than the items, and the sum of the file sizes |
| HistoryStore.History.constructor | src/history.rs:46-50 | a new history is empty, and every search of it finds nothing |
| HistoryStore.History.AddEntry | src/history.rs:98-101 | the entry is appended after all earlier ones, so every search afterwards finds what it found before, then the new entry when it matches |
| HistoryStore.History.IsEmpty | src/history.rs:166-172 | empty exactly when the length is 0 |
| HistoryStore.History.ContainsUrl | src/history.rs:103-105 | true exactly when some entry has that URL |
| HistoryStore.History.GetEntryByUrl | src/history.rs:107-109 | an entry is found exactly when the URL is known, and it is an entry of the history with that URL |
| HistoryStore.History.GetRecent | src/history.rs:111-115 | at most `limit` entries, newest first, drawn from the history, with no entry left out newer than one returned |
| HistoryStore.History.Search | src/history.rs:117-126 | every result matches the query in title or URL ignoring case, each matching entry comes back as often as it is stored, and nothing else does |
| HistoryStore.History.Clear | src/history.rs:128-131 | the history is empty afterwards |
| HistoryStore.History.ClearOlderThan | src/history.rs:133-139 | the entries strictly newer than the cutoff stay, in order, and an entry stays exactly when it is newer |
| HistoryStore.History.ExportToCsv | src/history.rs:141-164 | the text is the header followed by one line per entry, in history order; a failed write is an I/O error |
| HistoryStore.FirstWithUrl | src/history.rs:107-109 | the index found holds the URL with no earlier entry holding it; none found means no entry holds it |
| HistoryStore.RecentEntries | src/history.rs:111-115 | sorting newest first and taking `limit` gives a sorted selection of the entries that no entry left out beats |
| HistoryStore.AddedUrlIsContained | src/history.rs:98-105 | once an entry is added its URL is known |
| HistoryStore.SearchFindsTitle | src/history.rs:215-238 | the query "rust" matches the entry titled "Rust Tutorial" |
| HistoryStore.SearchSkipsOthers | src/history.rs:215-238 | the query "rust" does not match the entry titled "Python Guide" |
| HistoryStore.MissingLetterNoMatch | src/history.rs:117-126 | a query whose first letter appears in neither case in the title or URL matches nothing |
| HistoryStore.WithoutRNoRust | src/history.rs:117-126 | without an r of either case in title and URL, "rust" does not match |
| HistoryStore.Escape | src/history.rs:147-153 | text without double quotes is left as it is |
| HistoryStore.CsvRowsAppend | src/history.rs:144-155 | exporting one more entry appends exactly its line |
| HistoryStore.QuotedReadsBack | src/history.rs:146-153 | a field quoted with doubled inner quotes reads back as the original text, by section 2 of RFC 4180 |
| HistoryStore.NumberReadsBack | src/history.rs:150 | the unquoted size reads back as its digits |
| HistoryStore.RowReadsBack | src/history.rs:145-154 | a row of cells that each read back reads back as those values, up to its line feed |
| HistoryStore.CsvLineReadsBack | src/history.rs:145-154 | each exported line reads back as the entry's seven fields |
| HistoryStore.CsvRowsReadBack | src/history.rs:141-155 | the exported rows read back as one record per entry, in history order |
| Downloader.AsU64 | src/infra/downloader.rs:302-303 | a JSON value is read as a number exactly when it is an integer between 0 and the largest 64-bit unsigned value, and then as that integer |
| Downloader.DecodeFormat | src/infra/downloader.rs:297-307 | a format is decoded exactly when its id and extension are strings; the other fields are the entry's own when present, and the frame rate keeps its low 32 bits |
| Downloader.DecodeFormats | src/infra/downloader.rs:294-311 | no more formats than entries |
| Downloader.DecodeFormatsAppend | src/infra/downloader.rs:294-308 | decoding goes entry by entry: two arrays end to end decode to their formats end to end |
| Downloader.DecodeFormatsOne | src/infra/downloader.rs:297-307 | one entry yields its format when complete and nothing otherwise |
| Downloader.DecodeFormatsCount | src/infra/downloader.rs:294-308 | exactly the complete entries survive |
| Downloader.MetadataFromJson | src/infra/downloader.rs:313-332 | a missing or non-string id, title or uploader becomes "unknown", "Unknown Title" or "Unknown"; the optional fields are the JSON's own; without a formats array there are no formats |
| Downloader.FetchArgs | src/infra/downloader.rs:277-278 | the info run passes three arguments, the URL last |
| Downloader.FetchVideoInfo | src/infra/downloader.rs:274-336 | a failed start, a failed run (with its stderr) and unparsable JSON are each their own error; it succeeds exactly when the run succeeded and its output parsed, and then the record is read from the JSON |
| Downloader.Height | src/cli/commands/info.rs:58-67 | the height read from a resolution is a 32-bit unsigned value |
| Downloader.TallestVideoFormats | src/cli/commands/info.rs:55-69 | no more than the requested number of formats are shown |
| Downloader.TallestVideoFormatsShape | src/cli/commands/info.rs:55-69 | the shown formats all have a video stream and run tallest first, and no video format left off is taller than one shown |
| Downloader.HeightOfResolution | src/cli/commands/info.rs:59-62 | a resolution "WxH" has height H |
| Downloader.HeightWithoutSeparator | src/cli/commands/info.rs:59-62 | a resolution with no 'x', such as "audio only", has height 0 |
| Downloader.DisplayInfo | src/infra/downloader.rs:37-59 | the displayed record keeps title, uploader and upload date, shows the duration as minutes and seconds, and has a view count exactly when the metadata has one |
| Downloader.DisplayDurationFields | src/infra/downloader.rs:41-47 | a duration is shown as minutes, ':' and two-digit seconds below 60, which give back the duration; a missing one is "Unknown" |
| Downloader.DisplayViewsGrouping | src/infra/downloader.rs:48-56 | removing the commas gives the count's digits; the first group has one to three digits and every later group three |
| Downloader.DisplayViewsExample | src/infra/downloader.rs:48-56 | 1234567 views are shown as "1,234,567" and 999 as "999" |
| Downloader.BuildArgs | src/infra/downloader.rs:151-181 | the vector built push by push is the specified argument vector |
| Downloader.ToolArgsShape | src/infra/downloader.rs:151-181 | four fixed leading arguments and the URL last; `--continue` exactly when resuming; MP3 extraction and no "-f" for audio, otherwise "-f" and the selector for the quality just before the URL |
| Downloader.ProgressArgsNeverResume | src/infra/downloader.rs:355-380 | the progress download never passes `--continue` |
| Downloader.ExitError | src/infra/downloader.rs:257-263 | no error exactly when the process exited with 0; otherwise a tool failure whose message starts with the exit prefix |
| Downloader.ExitErrorCarriesCode | src/infra/downloader.rs:257-263 | the exit code can be read back from the message, and a process with no code reports -1 |
| Downloader.Extension | src/infra/downloader.rs:91-92 | an extension is the text after a '.' that is not the first character and contains no '.' itself; a name with no '.' has none |
| Downloader.ExtensionExamples | src/infra/downloader.rs:120-124 | "video.mp4.part" has extension "part", "video.mp4" has "mp4", and ".part" and "README" have none |
| Downloader.Newest | src/infra/downloader.rs:107-144 | none found exactly when no entry is a candidate; otherwise a candidate no candidate is newer than, with every earlier candidate strictly older |
| Downloader.FindNewestFile | src/infra/downloader.rs:107-144 | an unreadable directory and a directory without candidates are errors; otherwise the path of the newest candidate |
| Downloader.NewestStep | src/infra/downloader.rs:113-139 | one more entry takes the lead exactly when it is a candidate strictly newer than the one kept |
| Downloader.CheckPartialDownload | src/infra/downloader.rs:86-100 | an unreadable directory has no partial download; otherwise one is found exactly when some entry ends in ".part", and it is the first such entry |
| Downloader.Outcome | src/infra/downloader.rs:247-271 | a download succeeds exactly when the process ran, exited with 0 and the directory holds a candidate file |
| Downloader.DownloadWithResume | src/infra/downloader.rs:146-272 | the first failing step decides the error (directory, spawn, wait, exit code, listing); the tool is started with the specified arguments; success is the newest file's path |
| Downloader.DownloadWithProgress | src/infra/downloader.rs:342-500 | as without progress but never resuming, and each stdout line that parses as progress is handed to the callback in order |
| ProgressParser.Leftmost | src/infra/downloader.rs:407 | a regex search reports the first start position that matches, and no earlier one matches; none means no position matches |
| ProgressParser.LeftmostIs | src/infra/downloader.rs:407 | a matching position with no match before it is the one found |
| ProgressParser.PercentAtSound | src/infra/downloader.rs:398 | what the percentage matcher captures is a match of `\[download\]\s+(\d+\.?\d*)%` |
| ProgressParser.PercentMatchOf | src/infra/downloader.rs:398 | a reported capture is the group of a declarative match at that position |
| ProgressParser.PercentAtComplete | src/infra/downloader.rs:398 | conversely, every declarative match at a position is found, with its group |
| ProgressParser.NumberThenWord | src/infra/downloader.rs:399-401 | the backtracking number-then-unit match yields two non-empty groups |
| ProgressParser.ParseDecimal | src/infra/downloader.rs:408 | the float read from the captured digits is never negative |
| ProgressParser.ParsePercentText | src/infra/downloader.rs:408 | every text the percentage group can capture parses as a float |
| ProgressParser.Multiplier | src/infra/downloader.rs:420-425 | every unit multiplies by at least 1 |
| ProgressParser.SatU64 | src/infra/downloader.rs:426-427 | the float-to-u64 cast rounds toward zero, stays within 64 bits and sends negatives to 0 |
| ProgressParser.WrapU64 | src/infra/downloader.rs:450-454 | u64 arithmetic stays within 64 bits and is exact when no overflow happens |
| ProgressParser.ParseEta | src/infra/downloader.rs:445-457 | an ETA is read only from two or three colon-separated fields |
| ProgressParser.EtaBy | src/infra/downloader.rs:447-456 | only two or three fields give an ETA |
| ProgressParser.EtaMinutesSeconds | src/infra/downloader.rs:448-451 | "M:S" is M·60+S seconds |
| ProgressParser.EtaHoursMinutesSeconds | src/infra/downloader.rs:452-455 | "H:M:S" is H·3600+M·60+S seconds |
| ProgressParser.EtaOfThreeFields | src/infra/downloader.rs:452-455 | three fields that parse give hours, minutes and seconds summed |
| ProgressParser.SizeFields | src/infra/downloader.rs:417-429 | both byte counts are zero unless the size pattern matched with a number that parses; then the total is that number times its unit's multiplier cast to u64 and the downloaded bytes the percentage's share of it; both fit in 64 bits, nothing is downloaded of a zero total, and up to 100 % the downloaded bytes never exceed the total |
| ProgressParser.DownloadedBounded | src/infra/downloader.rs:426-427 | the downloaded share of a total is at most the total and 0 of a total of 0 |
| ProgressParser.SpeedField | src/infra/downloader.rs:431-442 | the speed is zero unless the speed pattern matched with a number that parses; then it is that number times its unit's multiplier, and it is never negative |
| ProgressParser.ParseProgressLine | src/infra/downloader.rs:407-461 | a sample comes only from a line where the percentage pattern matches and its group parses, with that percentage; its byte counts, speed and ETA are those the size, speed and ETA fields read from the same line; the percentage and speed are non-negative, the byte counts within 64 bits, and downloaded bytes within the total up to 100 % |
| ProgressParser.FirstMatch | src/infra/downloader.rs:417-444 | `Regex::captures` finds the groups of the first position that matches, with no match before it; none exactly when no position matches |
| ProgressParser.SizeOf | src/infra/downloader.rs:417-429 | the byte counts of a size match: zero without a match or a parsable number, otherwise the scaled total and its share, within 64 bits |
| ProgressParser.Share | src/infra/downloader.rs:427 | the downloaded share is 0 of a zero total, at most the total up to 100 %, and within 64 bits |
| ProgressParser.FractionBounds | src/infra/downloader.rs:427 | a percentage's share of a non-negative total is non-negative, at most the total up to 100 %, and 0 of 0 |
| ProgressParser.SpeedOf | src/infra/downloader.rs:431-442 | the bytes per second of a speed match: zero without a match or a parsable number, otherwise the scaled number, never negative |
| ProgressParser.EtaField | src/infra/downloader.rs:444-457 | no ETA unless the ETA pattern matched; then the reading of its captured text |
| ProgressParser.ParseProgressLineExample | src/infra/downloader.rs:398-461 | the line "[download]  45.2% of ~150.00MiB at 2.50MiB/s ETA 00:30" gives 45.2 %, 157286400 bytes in all, 71093452 downloaded, 2621440 bytes per second and 30 seconds left |
| ProgressParser.SampleIffPercentMatch | src/infra/downloader.rs:407-408 | a line yields a sample exactly when the percentage pattern matches somewhere in it |
| ProgressParser.SamplePercentage | src/infra/downloader.rs:407-410 | the sample's percentage is the value of the leftmost match's group |
| ProgressParser.SamplesAppend | src/infra/downloader.rs:404-463 | each line is parsed on its own: the samples of two runs of lines are the samples of each, in order |
| ProgressParser.SamplesOfOneLine | src/infra/downloader.rs:404-463 | one line contributes its own sample, or nothing |
| ProgressParser.DriveProgress | src/infra/downloader.rs:404-463 | the read loop hands exactly the samples of its lines to the callback, in order |
| ProgressParser.EtaExample | src/infra/downloader.rs:448-451 | "00:30" is 30 seconds |
| ProgressParser.EtaHoursExample | src/infra/downloader.rs:452-455 | "01:00:05" is 3605 seconds |
| ProgressParser.EtaOneFieldExample | src/infra/downloader.rs:447-457 | a single field gives no ETA |
| ProgressParser.SizeExample | src/infra/downloader.rs:399 | in "of 10.00MiB" the size is "10.00" in unit "MiB" |
| ProgressParser.SizeValueExample | src/infra/downloader.rs:419-426 | 10.00 MiB are 10485760 bytes |
| ProgressParser.SizeBacktrackExample | src/infra/downloader.rs:399 | in "of 100 x" the number gives its last digit to the unit, so the size is "10" in unit "0" |
| InfoCommand.InfoDurationRoundTrip | src/cli/commands/info.rs:17-26 | three ':'-separated fields from one hour on and two below it; the padded fields are two digits below 60, and the fields read back to the duration |
| InfoCommand.InfoClockRoundTrip | src/cli/commands/info.rs:21-25 | the clock text of hours, minutes and seconds reads back as those fields, with the hours field only when there are hours |
| InfoCommand.HourFields | src/cli/commands/info.rs:22 | "H:MM:SS" splits into the three fields it was built from |
| InfoCommand.MinuteFields | src/cli/commands/info.rs:24 | "M:SS" splits into the two fields it was built from |
| InfoCommand.InfoDurationExamples | src/cli/commands/info.rs:17-26 | 65 seconds are "1:05", 3661 are "1:01:01" and 0 are "0:00" |
| InfoCommand.PreviewAsWritten | src/cli/commands/info.rs:42-47 | a description of at most 200 bytes is shown unchanged; the slice at byte 200 fails exactly when the description is longer and byte 200 falls inside a character |
| InfoCommand.FitWithin | src/cli/commands/info.rs:43-44 | the number of leading characters kept is at most the length |
| InfoCommand.FitWithinIsLongest | src/cli/commands/info.rs:43-44 | the kept prefix fits the byte budget and one more character would not |
| InfoCommand.Preview | src/cli/commands/info.rs:42-47 | a description of at most 200 bytes is shown unchanged; a longer one is cut after its last whole character within 200 bytes and followed by "..." |
| InfoCommand.FitAtBoundary | src/cli/commands/info.rs:44 | when byte 200 is a character boundary the cut is where the slice cuts |
| InfoCommand.PreviewAgrees | src/cli/commands/info.rs:42-47 | wherever the slice as written does not fail, it gives the corrected preview |
| InfoCommand.PreviewAsciiNeverPanics | src/cli/commands/info.rs:43-44 | the slice never fails on ASCII text, whatever its length |
| InfoCommand.PreviewPanicsInsideCharacter | src/cli/commands/info.rs:43-44 | 199 ASCII letters then 'é' make 201 bytes, and the slice at byte 200 fails; the corrected preview keeps the letters and adds "..." |
| InfoCommand.InfoFormats | src/cli/commands/info.rs:55-69 | at most ten formats are listed |
| InfoCommand.FormatLines | src/cli/commands/info.rs:69-75 | one line per format, numbered from 1 in list order |
| InfoCommand.ListFormats | src/cli/commands/info.rs:69-75 | the enumerating loop prints exactly the lines of the listed formats |
| InfoCommand.FormatListShape | src/cli/commands/info.rs:55-75 | at most ten lines, each for a format with a video stream, tallest first, with no video format left off taller than one listed |
| InfoCommand.FormatLineNumbered | src/cli/commands/info.rs:74 | each line starts with its own number, and lines with different numbers differ |
| InfoCommand.NumberPrefixInjective | src/cli/commands/info.rs:74 | two numbers that can both start a line are equal, because the digits run up to the period |
| TuiApp.NewSettings | src/tui/app.rs:170-176 | the settings screen opens on the first row with the given directory, quality and concurrency and MP3 audio |
| TuiApp.InputVerdict | src/tui/app.rs:211-221 | no verdict for empty input; otherwise valid exactly when the text mentions "youtube.com" or "youtu.be" |
| TuiApp.VerdictMessage | src/tui/app.rs:212-221 | the prompt with no verdict, "Valid YouTube URL" or "Invalid YouTube URL" by the verdict |
| TuiApp.LastUrl | src/tui/app.rs:147-152 | a failure remembers the typed input, the URL being fetched or the URL being downloaded, and nothing on any other screen |
| TuiApp.WithInput | src/tui/app.rs:206-223 | on the URL screen the input, the cursor and the verdict for the new input are stored; elsewhere nothing changes |
| TuiApp.ErrorFrom | src/tui/app.rs:146-161 | the error screen holds the type, message and suggestions given, the remembered URL and no retries |
| TuiApp.BackFrom | src/tui/app.rs:178-188 | leaving help or settings restores the screen below; elsewhere nothing changes |
| TuiApp.NextSetting | src/tui/app.rs:190-196 | one row down unless on the last of the five rows; only the row moves; elsewhere nothing changes |
| TuiApp.PreviousSetting | src/tui/app.rs:198-204 | one row up unless on the first row; only the row moves; elsewhere nothing changes |
| TuiApp.NextFormat | src/tui/app.rs:238-244 | one format down unless on the last; only the highlight moves and stays inside the list |
| TuiApp.PreviousFormat | src/tui/app.rs:246-252 | one format up unless on the first; only the highlight moves |
| TuiApp.DownloadStarted | src/tui/app.rs:254-271 | the highlighted format starts downloading with zero progress; elsewhere nothing changes |
| TuiApp.WithProgress | src/tui/app.rs:273-277 | progress is recorded only while downloading |
| TuiApp.HelpRoundTrip | src/tui/app.rs:163-188 | opening help and going back returns to the same screen |
| TuiApp.SettingsRoundTrip | src/tui/app.rs:170-188 | opening settings and going back returns to the same screen |
| TuiApp.App.constructor | src/tui/app.rs:104-121 | the application opens on the empty URL screen, not quitting, with fresh animations |
| TuiApp.App.Tick | src/tui/app.rs:124-130 | each animation advances by its own tick: the spinner and the cursor when their interval has passed (restarting their clocks), the checkmark by one frame while it runs, completing it at the last frame, the colour cycle and the pulse by one frame; frame tables and intervals stay, and the screen and quit flag are untouched |
| TuiApp.App.Quit | src/tui/app.rs:132-134 | sets the quit flag and leaves the screen |
| TuiApp.App.GoToUrlInput | src/tui/app.rs:136-144 | shows the empty URL screen |
| TuiApp.App.GoToWelcome | src/tui/runner.rs:90-92 | shows the welcome screen |
| TuiApp.App.GoToError | src/tui/app.rs:146-161 | the screen becomes the error built from the current one |
| TuiApp.App.GoToHelp | src/tui/app.rs:163-168 | help opens over the current screen |
| TuiApp.App.GoToSettings | src/tui/app.rs:170-176 | settings open over the current screen |
| TuiApp.App.BackFromOverlay | src/tui/app.rs:178-188 | the screen becomes what leaving the overlay gives |
| TuiApp.App.SelectNextSetting | src/tui/app.rs:190-196 | the screen becomes the next-row move |
| TuiApp.App.SelectPreviousSetting | src/tui/app.rs:198-204 | the screen becomes the previous-row move |
| TuiApp.App.UpdateInput | src/tui/app.rs:206-223 | the screen becomes the edited URL screen with its verdict |
| TuiApp.App.StartFetchingInfo | src/tui/app.rs:225-227 | the fetching screen for the URL |
| TuiApp.App.ShowFormatSelection | src/tui/app.rs:229-236 | the format list with its first entry highlighted |
| TuiApp.App.SelectNextFormat | src/tui/app.rs:238-244 | the screen becomes the next-format move |
| TuiApp.App.SelectPreviousFormat | src/tui/app.rs:246-252 | the screen becomes the previous-format move |
| TuiApp.App.StartDownload | src/tui/app.rs:254-271 | the screen becomes the download of the highlighted format |
| TuiApp.App.UpdateProgress | src/tui/app.rs:273-277 | the screen records the progress when downloading |
| TuiApp.App.DownloadComplete | src/tui/app.rs:279-281 | the success screen with the download's details |
| TuiRunner.ListedVideoFormats | src/tui/runner.rs:404-420 | at most five video formats are offered |
| TuiRunner.OptionFor | src/tui/runner.rs:420-433 | an offered format keeps its id and is labelled by its resolution, "Unknown" when it has none, with size "Unknown" when it has none |
| TuiRunner.VideoOptions | src/tui/runner.rs:420-434 | one entry per listed format, in order |
| TuiRunner.VideoOptionsSnoc | src/tui/runner.rs:420-434 | one more listed format adds exactly its entry |
| TuiRunner.BuildFormatList | src/tui/runner.rs:395-442 | the list built push by push is "best", the listed video formats, then audio |
| TuiRunner.ListedVideoFormatsShape | src/tui/runner.rs:404-420 | the offered formats all have a video stream and run tallest first, and no video format left off is taller than one offered |
| TuiRunner.FetchedFormatsShape | src/tui/runner.rs:395-442 | two to seven entries, "best" first and "audio" last, and in between one entry per listed format in order, keeping its id |
| TuiRunner.FramedOptions | src/tui/runner.rs:395-442 | the framed list puts each video entry one place after its format's position |
| TuiRunner.InsertAt | src/tui/runner.rs:158-162 | inserted text lands at the cursor, with the input before and after it unchanged |
| TuiRunner.RemoveAt | src/tui/runner.rs:220-226 | removing a character keeps everything before it and shifts everything after it |
| TuiRunner.Step | src/tui/runner.rs:150-380 | every event keeps the session well formed: selections inside their lists, cursors inside their input |
| TuiRunner.KeyStepReady | src/tui/runner.rs:168-370 | a key press keeps the session well formed |
| TuiRunner.QuitOnEveryScreen | src/tui/runner.rs:169-174 | the quit keys quit on every screen before the screen sees them, and change nothing else |
| TuiRunner.TypingQQuits | src/tui/runner.rs:169-174 | on the URL screen a plain `q` quits instead of being typed |
| TuiRunner.DownloadCancelUnreachable | src/tui/runner.rs:301-310 | the download screen's Ctrl+C cancel never runs, because Ctrl+C quits first |
| TuiRunner.HelpKeyGating | src/tui/runner.rs:176-184 | a help key opens help exactly on the screens other than help, settings and the URL screen; on the URL screen it is typed |
| TuiRunner.HelpNotSelf | src/tui/app.rs:163-168 | help opened over a screen is never that screen |
| TuiRunner.OverlaysNeverNest | src/tui/runner.rs:176-209 | help never covers an overlay; settings open only from the welcome screen, and help only over the screen shown |
| TuiRunner.TypingInserts | src/tui/runner.rs:214-219 | a plain character is inserted at the cursor and the cursor moves one character on |
| TuiRunner.BackspaceRemoves | src/tui/runner.rs:220-227 | Backspace removes the character before the cursor and moves it back; at the start it does nothing |
| TuiRunner.ControlUClears | src/tui/runner.rs:228-231 | Ctrl+U empties the input |
| TuiRunner.PasteInserts | src/tui/runner.rs:151-167 | a paste inserts the text at the cursor and moves the cursor past it on the URL screen, and is ignored elsewhere |
| TuiRunner.EnterNeedsYoutube | src/tui/runner.rs:232-241 | Enter on the URL screen leaves it exactly when the input mentions a YouTube host, for the fetched format list or the fetch error |
| TuiRunner.DownloadRequests | src/tui/runner.rs:265-293 | Enter downloads audio only exactly when the highlighted entry is the audio entry; `a` always downloads audio |
| TuiRunner.OnlyFormatListDownloads | src/tui/runner.rs:255-300 | only a key on the format list starts a download, and it shows the download screen |
| TuiRunner.TypeCharAsWritten | src/tui/runner.rs:214-219 | as written the insert succeeds exactly when the cursor, read as a byte offset, is on a character boundary, and the cursor moves by one |
| TuiRunner.PasteAsWritten | src/tui/runner.rs:158-166 | as written the paste succeeds exactly on a character boundary and the cursor moves by the text's byte length |
| TuiRunner.TypingAfterAccentPanics | src/tui/runner.rs:214-219 | typing 'é' and then 'a' into an empty input fails on the second key |
| TuiRunner.PasteAccentOvershoots | src/tui/runner.rs:158-166 | pasting 'é' into an empty input puts the cursor at 2, past the one-character input |
| TuiRunner.AsWrittenAgreesOnAscii | src/tui/runner.rs:158-219 | on ASCII text the byte cursor and the character cursor agree |
| TuiRunner.HandleEvent | src/tui/runner.rs:150-380 | the screen, the quit flag and the download started are those the event's step gives, and the session stays well formed; a tick advances every animation as `App.Tick` does, and every other event leaves the animations untouched |
| TuiRunner.HandleKey | src/tui/runner.rs:168-370 | a key press changes the screen, the quit flag and the download started as its step says, and changes only the application record, never its animations |
| TuiRunner.ScreenKey | src/tui/runner.rs:186-369 | the screen-specific handling of a key matches its step and never quits |
| TuiRunner.UrlInputKeyOn | src/tui/runner.rs:210-248 | a key on the URL screen changes it as specified, including the fetch Enter starts |
| TuiRunner.FetchVideoInfoOn | src/tui/runner.rs:385-461 | the fetch's outcome is installed as specified; the format list only if the screen still waits for it |
| TuiRunner.ProgressOf | src/tui/runner.rs:482-489 | the progress record copies the sample's fields and the elapsed seconds |
| TuiRunner.ProgressedGuarded | src/tui/runner.rs:478-491 | samples land only on the download screen, which then shows the last sample and is otherwise unchanged |
| TuiRunner.SizeUnit | src/tui/runner.rs:508-519 | GB above 10^9 bytes, MB above 10^6, KB above 10^3, bytes otherwise, each exactly |
| TuiRunner.SizeText | src/tui/runner.rs:508-519 | the size text ends in its unit, and for bytes it is the exact count |
| TuiRunner.DurationTextExamples | src/tui/runner.rs:522-527 | 61 seconds are "1 min 1 sec", 60 are "60 seconds" and 125 are "2 min 5 sec" |
| TuiRunner.OverAMinute | src/tui/runner.rs:523-524 | above a minute the text is the minutes and the remaining seconds |
| TuiRunner.FileName | src/tui/runner.rs:499-503 | a file name has no '/', is not empty and ends the path |
| TuiRunner.JoinedPathParts | src/tui/runner.rs:499-531 | an entry name joined onto a directory is the path's file name, and the directory its parent |
| TuiRunner.Completed | src/tui/runner.rs:497-554 | a finished download shows success; a failed one the download error with the remembered URL and the download suggestions |
| TuiRunner.PerformDownload | src/tui/runner.rs:464-555 | the samples are those of the tool's output; it succeeds exactly when the download does; the screen ends as the outcome applied after the samples |
| TuiRunner.ShowProgress | src/tui/runner.rs:474-492 | each sample in turn becomes the progress shown |
| TuiRunner.ShowOutcome | src/tui/runner.rs:495-554 | the screen becomes the success or the error for the outcome |
| TuiRunner.CompletionOverwrites | src/tui/runner.rs:495-554 | an ending download replaces whatever screen is shown, not only the download screen |
| FlatApp.VerdictMessage | src/ui/app.rs:138-147 | the short prompt when there is no verdict, "Valid YouTube URL" or "Invalid YouTube URL" by the verdict |
| FlatApp.LastUrl | src/ui/app.rs:117-122 | a failure remembers the typed input, the URL being fetched or the URL being downloaded, and nothing on any other screen |
| FlatApp.WithInput | src/ui/app.rs:132-149 | on the URL screen the input, the cursor and the verdict for the new input are stored; elsewhere nothing changes |
| FlatApp.ErrorFrom | src/ui/app.rs:116-130 | the error screen holds the type, message and suggestions given and the remembered URL |
| FlatApp.BackFrom | src/tui.rs:265-269 | leaving help or settings restores the screen below; elsewhere nothing changes |
| FlatApp.NextSetting | src/tui.rs:273 | one row down unless on the last row; only the row moves |
| FlatApp.PreviousSetting | src/tui.rs:272 | one row up unless on the first row; only the row moves |
| FlatApp.NextFormat | src/ui/app.rs:164-170 | one format down unless on the last; only the highlight moves and stays inside the list |
| FlatApp.PreviousFormat | src/ui/app.rs:172-178 | one format up unless on the first; only the highlight moves |
| FlatApp.DownloadStarted | src/ui/app.rs:180-197 | the highlighted format starts downloading with zero progress; elsewhere nothing changes |
| FlatApp.WithProgress | src/ui/app.rs:199-203 | progress is recorded only while downloading |
| FlatApp.FormatNavigationClamped | src/ui/app.rs:164-178 | any run of up and down moves keeps the list and a highlight inside it |
| FlatApp.Navigate | src/ui/app.rs:164-178 | a run of moves keeps the session well formed |
| FlatApp.NavigateKeeps | src/ui/app.rs:164-178 | a run of moves stays on the same format list |
| FlatApp.App.constructor | src/ui/app.rs:90-96 | the flat application opens on the welcome screen, not quitting |
| FlatApp.App.Quit | src/ui/app.rs:98-100 | sets the quit flag and leaves the screen |
| FlatApp.App.GoToUrlInput | src/ui/app.rs:102-110 | shows the empty URL screen with the short prompt |
| FlatApp.App.GoToWelcome | src/ui/app.rs:112-114 | shows the welcome screen |
| FlatApp.App.GoToError | src/ui/app.rs:116-130 | the screen becomes the error built from the current one |
| FlatApp.App.GoToHelp | src/tui.rs:147-152 | help opens over the current screen |
| FlatApp.App.GoToSettings | src/tui.rs:160-166 | settings open over the current screen |
| FlatApp.App.BackFromOverlay | src/tui.rs:265-269 | the screen becomes what leaving the overlay gives |
| FlatApp.App.SelectNextSetting | src/tui.rs:273 | the screen becomes the next-row move |
| FlatApp.App.SelectPreviousSetting | src/tui.rs:272 | the screen becomes the previous-row move |
| FlatApp.App.Tick | src/tui.rs:289-292 | a tick changes neither the screen nor the quit flag |
| FlatApp.App.UpdateInput | src/ui/app.rs:132-149 | the screen becomes the edited URL screen with its verdict |
| FlatApp.App.StartFetchingInfo | src/ui/app.rs:151-153 | the fetching screen for the URL |
| FlatApp.App.ShowFormatSelection | src/ui/app.rs:155-162 | the format list with its first entry highlighted |
| FlatApp.App.SelectNextFormat | src/ui/app.rs:164-170 | the screen becomes the next-format move |
| FlatApp.App.SelectPreviousFormat | src/ui/app.rs:172-178 | the screen becomes the previous-format move |
| FlatApp.App.StartDownload | src/ui/app.rs:180-197 | the screen becomes the download of the highlighted format |
| FlatApp.App.UpdateProgress | src/ui/app.rs:199-203 | the screen records the progress when downloading |
| FlatApp.App.DownloadComplete | src/ui/app.rs:205-207 | the success screen with the download's details |
| FlatTui.SimulatedFetch | src/tui.rs:347-349 | the fixed list is installed with its first entry highlighted only if the screen is still fetching |
| FlatTui.SimulatedStep | src/tui.rs:361-368 | step i shows i percent, 5000000·i of 500000000 bytes, 100−i seconds left and i elapsed |
| FlatTui.SimulatedThroughGuarded | src/tui.rs:359-372 | the steps land only on the download screen, which ends up showing the last step offered |
| FlatTui.SimulateDownload | src/tui.rs:353-383 | 101 steps, each applied only while the screen is the download screen, then the success screen whatever the screen |
| FlatTui.Step | src/tui.rs:137-296 | every event keeps the session well formed |
| FlatTui.QuitOnEveryScreen | src/tui.rs:141-144 | the quit keys quit on every screen before the screen sees them |
| FlatTui.HelpKeyGating | src/tui.rs:146-153 | help opens exactly over the screens other than help, settings and the URL screen |
| FlatTui.AudioKeyIsEnter | src/tui.rs:212-221 | on the format list `a` does exactly what Enter does |
| FlatTui.EscapeToWelcome | src/tui.rs:197-199 | Escape on the URL screen returns to the welcome screen |
| FlatTui.EnterNeedsYoutube | src/tui.rs:189-196 | Enter on the URL screen leaves it exactly when the input mentions a YouTube host, for the fixed list |
| FlatTui.SimulatedFormatsShape | src/tui.rs:314-345 | the fixed list has five entries, "best" first and "audio" last |
| FlatTui.TypingInserts | src/tui.rs:174-178 | a plain character is inserted at the cursor and the cursor moves one place on |
| FlatTui.UrlInputKeyAsWritten | src/tui.rs:174-184 | the URL screen's keys as the source runs them: typing panics exactly when the cursor, read as a byte offset, is off a character boundary, and otherwise moves it one place on in an input one character longer; only typing and deleting can panic |
| FlatTui.TypingAfterAccentPanics | src/tui.rs:174-178 | typing 'é' on the empty URL screen lands, and typing 'a' after it panics |
| FlatTui.AsWrittenAgreesOnAscii | src/tui.rs:174-184 | on ASCII input the byte-offset keys of the source and the character-cursor keys of the model agree |
| FlatTui.HandleEvent | src/tui.rs:137-296 | the screen and the quit flag become those of the event's step |
| FlatTui.ScreenKey | src/tui.rs:155-284 | the screen-specific handling of a key matches its step and never quits |
| FlatTui.SimulateVideoFetch | src/tui.rs:299-350 | the application's screen becomes the simulated fetch's |
| Sequences.SortDesc | src/history.rs:113 | `sort_by` with the comparison reversed: the result is a permutation of the input (same length, same multiset) ordered by descending key |
| Sequences.SortDescIsStable | src/cli/commands/info.rs:58-67 | the sort is stable: the elements sharing any one key keep their original relative order |
| Sequences.Take | src/history.rs:114 | `take(limit)` keeps the first `limit` elements, or all of them when there are fewer |
| Sequences.TakeIsSubMultiset | src/history.rs:114 | what `take` keeps is a sub-multiset of its input |
| Sequences.TakeKeepsOrder | src/history.rs:113-114 | a prefix of a descending sequence is still descending |
| Sequences.TakeKeepsLargest | src/history.rs:111-115 | after a descending sort, every element `take` keeps has a key no smaller than any element it drops |
| Sequences.FirstLatest | src/infra/downloader.rs:111-141 | the position of the newest kept element: none exactly when no element is kept; otherwise it is kept, no kept element is newer, and every earlier kept element is strictly older (a tie keeps the first) |
| Sequences.FirstLatestStep | src/infra/downloader.rs:128-136 | one more element takes the lead exactly when it is kept and strictly newer than the leader so far |
| Sequences.Filter | src/history.rs:119-125 | `filter`: every element kept satisfies the predicate and comes from the input, and there are no more of them than inputs |
| Sequences.FilterCount | src/history.rs:134 | `filter` and `retain` keep each satisfying element as often as it occurs and drop every other one |
| Sequences.FilterAppend | src/history.rs:119-125 | filtering a concatenation is the concatenation of the filtered halves |
| Text.Trim | src/core/batch.rs:78 | `str::trim`: the result is the input with a run of whitespace removed from each end, and it neither starts nor ends with whitespace |
| Text.ToLower | src/history.rs:118-123 | `to_lowercase`, character by character: same length, capitals A-Z shifted to lower case, every other character unchanged |
| Text.Split | src/infra/downloader.rs:447 | `str::split` on one character: at least one piece, no piece holds the separator, and text without the separator is its own single piece |
| Text.SplitJoin | src/main.rs:381 | joining the pieces of a split with the separator gives back the text |
| Text.SplitLast | src/main.rs:381 | a separator followed by separator-free text adds exactly that text as the last piece |
| Text.NatToString | src/infra/downloader.rs:48 | `to_string` of an unsigned number: at least one character, all decimal digits, and no leading zero except for zero itself |
| Text.NatToStringRoundTrip | src/infra/downloader.rs:48 | the digits of a rendered number denote that number |
| Text.NatToStringInjective | src/infra/downloader.rs:48 | distinct numbers render differently |
| Text.ParseU64 | src/infra/downloader.rs:449 | `parse::<u64>()`: a result is at most 2^64 - 1 and comes from text that starts with a digit or `+` |
| Text.ParseUnsignedRoundTrip | src/infra/downloader.rs:449 | every number within the type's range is read back from its decimal rendering |
| Text.ParseUnsignedOverflow | src/infra/downloader.rs:449 | a number beyond the type's range is refused |
| Text.GroupThousandsRemovesCommas | src/infra/downloader.rs:47-56 | the comma-grouped view count, with its commas removed, is the plain decimal rendering |
| Text.GroupThousandsPieces | src/infra/downloader.rs:47-56 | `rchunks(3)` joined with commas: the first group has one to three digits and every later one exactly three |
| Text.ByteLen | src/cli/commands/info.rs:43 | `str::len` counts UTF-8 bytes, never fewer than the characters |
| Text.CharIndexAt | src/cli/commands/info.rs:44 | a byte offset that is a character boundary maps to the character index whose prefix has exactly that many bytes |
| Text.InsertAtByte | src/tui.rs:176 | `String::insert` at a byte offset succeeds exactly on a character boundary and adds one character; on ASCII text it inserts at that character position |
| Text.RemoveAtByte | src/tui.rs:182 | `String::remove` at a byte offset drops one character when it succeeds; on ASCII text it removes the character at that position |
| Text.AsciiCharIndex | src/cli/commands/info.rs:43-44 | in ASCII text every byte offset up to the length is a boundary at the same character index |
| Text.Pad2 | src/infra/downloader.rs:44 | `{:02}`: at least two digits, exactly two below 100 |
| Text.Pad2RoundTrip | src/infra/downloader.rs:44 | the zero-padded digits still denote the number |

## Left out

- **Terminal rendering.** Every `render_*` function, the banner, the progress gauge and the
  themes are ratatui presentation. `SettingsState` is kept as a plain record.
- **Process spawning and stream draining.** The tokio `Command`, the stdout and stderr line
  loops and `child.wait` are not modelled. Each run of the tool is an input: whether it
  could be spawned, its exit status and its stdout lines.
- **The stdout reader of `download_with_resume`.** It builds percent, speed and ETA messages
  for an indicatif progress bar. That message building and the bar are presentation.
- **Concurrency.** The `buffer_unordered` fan-out of the batch downloader, the
  `Arc<Mutex>` sharing and the spawned download tasks are not modelled. Batch items run one
  after another in index order. So the history records a batch adds follow index order, which
  the source guarantees only when one download is in flight at a time; otherwise they follow
  completion order. A background download is one step applied after the event
  that started it.
- **Floating point.** Percentage, size and speed are exact reals, and `as u64` is the
  floor, saturated. These are not modelled:
  - `BatchProgress::percentage`;
  - `PulsingSelection::intensity`;
  - `format_speed`.
  Rust's `{:.1}` and `{:.2}` renderings are the parameter `fixed`. Only the branch and
  unit choices around them are modelled.
- **File system and clock.** Directory listings are sequences of entries, and `now` is a
  parameter. Loading and saving the history's JSON file, reading the TOML configuration and
  locating the per-user directories are outside the model. Where a caller saves, the save's
  outcome is a parameter.
- **Foreign libraries.** serde_json decoding is replaced by records with optional fields.
  Each regular expression is written out as a leftmost-match function. `\d` and `\w` are
  the ASCII classes, and `\s` is Unicode White_Space.
- **System wrappers.** Desktop notifications, the arboard clipboard handle (with `set_text`) and
  `init_logger` are not modelled. Tool presence (`check_ytdlp`, `check_ffmpeg`) is an input.
- `Clipboard.ClipboardWatcher.WatchLoop`: models any finite run of polls of the endless
  `watch_loop`, without the half-second pause between polls.
- `ProgressParser.WrapU64`: models the release profile, where u64 overflow wraps; a debug
  build panics instead when an ETA's hours, minutes and seconds overflow.
- `HistoryStore.History.ClearOlderThan`: takes `now - days * 86400` as exact; chrono's
  `Duration::days` and the `DateTime` subtraction panic when the cutoff leaves their range,
  which the model does not capture.
- `FlatTui.Step`, `FlatTui.ScreenKey` and `FlatTui.TypingInserts` keep the cursor in
  characters, as `TuiRunner.Step` does; the byte-offset handling as written is
  `FlatTui.UrlInputKeyAsWritten` (see Findings).
- `FlatTui.SimulateDownload`: leaves out the pauses between simulated steps, as does
  `FlatTui.SimulateVideoFetch`.
- **Duplicate entry-point code.** `src/main.rs` has its own copies of `show_video_info`
  (229-304), `download_single_url` (306-366) and `handle_playlist_download` (368-430).
  They take the same steps as `InfoCommand`, `DownloadCommand` and `PlaylistCommand`, over
  the flat downloader, and are not modelled a second time. `MainPolicy` stops at the mode a
  run dispatches to.
- **Printing.** `list_formats` only prints, and `print_examples` likewise. The printing in
  `show_video_info` is left out. Its fetch error is passed on unchanged.
- **Unused options.** The playlist folder set by `with_folder` changes nothing the
  downloader does, so the model carries it without using it.
- **The flat event module.** The flat tree's key predicates are taken to be the layered
  ones.
- `Text.ToLower`: approximates Rust's Unicode `to_lowercase` by lower-casing A-Z only, so
  `HistoryStore.History.Search` is exact on ASCII text only.
- `TuiApp.App.ShowFormatSelection`: requires a non-empty format list. With an empty list
  the source's `select_next_format` underflows `len() - 1`, and `start_download` indexes
  out of bounds. The runner always installs at least "best" and "audio".
- `FlatApp.App.ShowFormatSelection`: requires a non-empty format list. The reason is the
  same, and the flat tree always installs five fixed entries.

## Findings

| source | as written | input that shows it | evidently intended | confidence | as-written member | corrected member |
|---|---|---|---|---|---|---|
| src/tui/runner.rs:158-166, src/tui/runner.rs:214-219, src/tui.rs:174-178 | the input cursor is used as a byte offset by `String::insert` and `insert_str`, but typing moves it by one and pasting moves it by the pasted text's byte length; the flat tree's URL screen types the same way | type 'é' then 'a' into an empty input: the cursor is 1, inside the two-byte 'é', and the insert panics; pasting "é" sets the cursor to 2 in a one-character input | the cursor counts characters: insert at the cursor's character position and advance by the number of characters inserted | not executed | TuiRunner.TypingAfterAccentPanics, TuiRunner.PasteAccentOvershoots, FlatTui.UrlInputKeyAsWritten, FlatTui.TypingAfterAccentPanics | TuiRunner.Step, TuiRunner.TypingInserts, FlatTui.Step, FlatTui.TypingInserts |
| src/cli/commands/info.rs:43-44 | a description over 200 bytes is sliced at byte 200, which panics when byte 200 falls inside a character | 199 ASCII letters followed by 'é' (201 bytes) | cut after the last whole character within the first 200 bytes, then add "..." | not executed | InfoCommand.PreviewPanicsInsideCharacter, InfoCommand.PreviewAsWritten | InfoCommand.Preview, InfoCommand.PreviewAgrees |
