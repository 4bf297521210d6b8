/**
 * The interactive application of the layered tree: the screens it can show, with the data
 * each screen carries, and the transitions between them. Every transition is a function on
 * `AppState` stating what the screen becomes; the `App` class changes its fields in place
 * and each of its methods is tied to the matching function.
 *
 * The state enumeration in the source has no welcome screen although the dispatcher shows
 * one and returns to it; `Welcome` and `GoToWelcome` are added here.
 */
module TuiApp {
  import opened Wrappers
  import opened Text
  import opened SpinnerWidgets
  import opened ColorCycleWidgets

  datatype VideoInfo = VideoInfo(
    title: string,
    uploader: string,
    duration: string,
    viewCount: Option<string>,
    uploadDate: Option<string>)

  datatype FormatOption = FormatOption(labelText: string, resolution: string, fileSize: string, formatId: string)

  datatype DownloadProgress = DownloadProgress(
    percentage: real,
    downloadedBytes: nat,
    totalBytes: nat,
    speed: real,
    eta: Option<nat>,
    elapsed: nat)

  const ZERO_PROGRESS: DownloadProgress := DownloadProgress(0.0, 0, 0, 0.0, None, 0)

  datatype DownloadSuccess = DownloadSuccess(filename: string, fileSize: string, duration: string, saveLocation: string)

  /** An entry of the recent-downloads list; `timestamp` is local time in seconds. */
  datatype DownloadHistory = DownloadHistory(title: string, timestamp: int, url: string)

  /** The settings screen's record; `selectedIndex` is the highlighted row. */
  datatype SettingsState = SettingsState(
    outputDir: string,
    quality: string,
    concurrentDownloads: nat,
    audioFormat: string,
    selectedIndex: nat)

  /** The index of the last settings row. */
  const LAST_SETTING: nat := 4

  function NewSettings(outputDir: string, quality: string, concurrent: nat): (s: SettingsState)
    ensures s.outputDir == outputDir && s.quality == quality && s.concurrentDownloads == concurrent
    ensures s.audioFormat == "mp3" && s.selectedIndex == 0
  {
    SettingsState(outputDir, quality, concurrent, "mp3", 0)
  }

  datatype AppState =
    | Welcome
    | UrlInput(input: string, cursorPos: nat, isValid: Option<bool>, validationMessage: string, recentDownloads: seq<DownloadHistory>)
    | FetchingInfo(url: string)
    | FormatSelection(url: string, videoInfo: VideoInfo, formats: seq<FormatOption>, selectedIndex: nat)
    | Downloading(url: string, videoInfo: VideoInfo, format: FormatOption, progress: DownloadProgress)
    | Success(info: DownloadSuccess)
    | Error(errorType: string, message: string, suggestions: seq<string>, lastUrl: Option<string>, retryCount: nat)
    | Help(previousState: AppState)
    | Settings(settings: SettingsState, previousState: AppState)

  const INPUT_PROMPT: string := "Paste a YouTube URL or press Ctrl+V"
  const VALID_MESSAGE: string := "Valid YouTube URL"
  const INVALID_MESSAGE: string := "Invalid YouTube URL"

  /** The URL screen as every route into it leaves it: empty input, cursor at 0, no verdict. */
  const EMPTY_URL_INPUT: AppState := UrlInput("", 0, None, INPUT_PROMPT, [])

  /** The interface's quick check: the text mentions one of the two YouTube hosts. */
  predicate MentionsYoutube(input: string)
  {
    Contains(input, "youtube.com") || Contains(input, "youtu.be")
  }

  /** No verdict for empty input, else whether the input mentions a YouTube host. */
  function InputVerdict(input: string): (v: Option<bool>)
    ensures v.None? <==> input == []
    ensures v == Some(true) <==> input != [] && MentionsYoutube(input)
    ensures v == Some(false) <==> input != [] && !MentionsYoutube(input)
  {
    if input == [] then None else Some(MentionsYoutube(input))
  }

  function VerdictMessage(v: Option<bool>): (m: string)
    ensures v.None? ==> m == INPUT_PROMPT
    ensures v == Some(true) ==> m == VALID_MESSAGE
    ensures v == Some(false) ==> m == INVALID_MESSAGE
  {
    match v
    case None => INPUT_PROMPT
    case Some(true) => VALID_MESSAGE
    case Some(false) => INVALID_MESSAGE
  }

  /** Screens of a well-formed session: a selection index inside a non-empty list, a settings row in range. */
  ghost predicate StateOk(s: AppState)
  {
    match s
    case FormatSelection(_, _, formats, i) => |formats| > 0 && i < |formats|
    case Help(prev) => StateOk(prev)
    case Settings(settings, prev) => settings.selectedIndex <= LAST_SETTING && StateOk(prev)
    case _ => true
  }

  /** The URL a failure on this screen was about: the typed input, the fetched or the downloading URL. */
  function LastUrl(s: AppState): (u: Option<string>)
    ensures s.UrlInput? ==> u == Some(s.input)
    ensures s.FetchingInfo? || s.Downloading? ==> u == Some(s.url)
    ensures !(s.UrlInput? || s.FetchingInfo? || s.Downloading?) ==> u.None?
  {
    match s
    case UrlInput(input, _, _, _, _) => Some(input)
    case FetchingInfo(url) => Some(url)
    case Downloading(url, _, _, _) => Some(url)
    case _ => None
  }

  // Transitions, one per method of `App`. Each leaves every other screen as it was.

  function WithInput(s: AppState, input: string, cursorPos: nat): (r: AppState)
    ensures s.UrlInput? ==> r.UrlInput? && r.input == input && r.cursorPos == cursorPos
                            && r.isValid == InputVerdict(input) && r.validationMessage == VerdictMessage(r.isValid)
                            && r.recentDownloads == s.recentDownloads
    ensures !s.UrlInput? ==> r == s
  {
    if s.UrlInput? then
      var v := InputVerdict(input);
      s.(input := input, cursorPos := cursorPos, isValid := v, validationMessage := VerdictMessage(v))
    else s
  }

  function ErrorFrom(s: AppState, errorType: string, message: string, suggestions: seq<string>): (r: AppState)
    ensures r.Error? && r.errorType == errorType && r.message == message && r.suggestions == suggestions
    ensures r.lastUrl == LastUrl(s) && r.retryCount == 0
  {
    Error(errorType, message, suggestions, LastUrl(s), 0)
  }

  /** Leaves an overlay for the screen it was opened over; elsewhere nothing changes. */
  function BackFrom(s: AppState): (r: AppState)
    ensures s.Help? || s.Settings? ==> r == s.previousState
    ensures !(s.Help? || s.Settings?) ==> r == s
  {
    match s
    case Help(prev) => prev
    case Settings(_, prev) => prev
    case _ => s
  }

  function NextSetting(s: AppState): (r: AppState)
    requires StateOk(s)
    ensures StateOk(r)
    ensures s.Settings? ==> r.Settings? && r.previousState == s.previousState
                            && r.settings == s.settings.(selectedIndex := r.settings.selectedIndex)
                            && r.settings.selectedIndex == (if s.settings.selectedIndex < LAST_SETTING then s.settings.selectedIndex + 1 else LAST_SETTING)
    ensures !s.Settings? ==> r == s
  {
    if s.Settings? && s.settings.selectedIndex < LAST_SETTING then
      s.(settings := s.settings.(selectedIndex := s.settings.selectedIndex + 1))
    else s
  }

  function PreviousSetting(s: AppState): (r: AppState)
    requires StateOk(s)
    ensures StateOk(r)
    ensures s.Settings? ==> r.Settings? && r.previousState == s.previousState
                            && r.settings == s.settings.(selectedIndex := r.settings.selectedIndex)
                            && r.settings.selectedIndex == (if s.settings.selectedIndex > 0 then s.settings.selectedIndex - 1 else 0)
    ensures !s.Settings? ==> r == s
  {
    if s.Settings? && s.settings.selectedIndex > 0 then
      s.(settings := s.settings.(selectedIndex := s.settings.selectedIndex - 1))
    else s
  }

  /** Down in the format list: one further, except at the last entry. */
  function NextFormat(s: AppState): (r: AppState)
    requires StateOk(s)
    ensures StateOk(r)
    ensures s.FormatSelection? ==> r.FormatSelection? && r == s.(selectedIndex := r.selectedIndex)
                                   && r.selectedIndex == (if s.selectedIndex < |s.formats| - 1 then s.selectedIndex + 1 else s.selectedIndex)
    ensures !s.FormatSelection? ==> r == s
  {
    if s.FormatSelection? && s.selectedIndex < |s.formats| - 1 then s.(selectedIndex := s.selectedIndex + 1) else s
  }

  /** Up in the format list: one back, except at the first entry. */
  function PreviousFormat(s: AppState): (r: AppState)
    requires StateOk(s)
    ensures StateOk(r)
    ensures s.FormatSelection? ==> r.FormatSelection? && r == s.(selectedIndex := r.selectedIndex)
                                   && r.selectedIndex == (if s.selectedIndex > 0 then s.selectedIndex - 1 else 0)
    ensures !s.FormatSelection? ==> r == s
  {
    if s.FormatSelection? && s.selectedIndex > 0 then s.(selectedIndex := s.selectedIndex - 1) else s
  }

  /** The highlighted format starts downloading with all-zero progress. */
  function DownloadStarted(s: AppState): (r: AppState)
    requires StateOk(s)
    ensures s.FormatSelection? ==> r == Downloading(s.url, s.videoInfo, s.formats[s.selectedIndex], ZERO_PROGRESS)
    ensures !s.FormatSelection? ==> r == s
  {
    if s.FormatSelection? then Downloading(s.url, s.videoInfo, s.formats[s.selectedIndex], ZERO_PROGRESS) else s
  }

  /** Progress is recorded only on the downloading screen. */
  function WithProgress(s: AppState, p: DownloadProgress): (r: AppState)
    ensures s.Downloading? ==> r == s.(progress := p)
    ensures !s.Downloading? ==> r == s
  {
    if s.Downloading? then s.(progress := p) else s
  }

  lemma {:induction false} HelpRoundTrip(s: AppState)
    ensures BackFrom(Help(s)) == s
  {
  }

  lemma {:induction false} SettingsRoundTrip(s: AppState, settings: SettingsState)
    ensures BackFrom(Settings(settings, s)) == s
  {
  }

  class App {
    var state: AppState
    var shouldQuit: bool
    const spinner: Spinner
    const cursor: BlinkingCursor
    const checkmark: CheckmarkAnimation
    const colorCycle: ColorCycle
    const pulsingSelection: PulsingSelection

    ghost predicate Valid()
      reads this, spinner, checkmark, colorCycle, pulsingSelection
    {
      StateOk(state) && spinner.Valid() && checkmark.Valid() && colorCycle.Valid() && pulsingSelection.Valid()
    }

    /** The application opens on the empty URL screen; `now` seeds the animations' clocks. */
    constructor (now: int)
      ensures Valid()
      ensures state == EMPTY_URL_INPUT && !shouldQuit
      ensures fresh(spinner) && fresh(cursor) && fresh(checkmark) && fresh(colorCycle) && fresh(pulsingSelection)
    {
      state := EMPTY_URL_INPUT;
      shouldQuit := false;
      spinner := new Spinner(now);
      cursor := new BlinkingCursor(now);
      checkmark := new CheckmarkAnimation(now);
      colorCycle := new ColorCycle();
      pulsingSelection := new PulsingSelection();
    }

    /**
     * One tick of every animation between the old state and this one: the spinner and the
     * cursor move when their interval has passed, the checkmark while it is still running, the
     * colour cycle and the pulse always. Frame tables and intervals stay as they are.
     */
    twostate predicate AnimationsTicked(now: int)
      requires old(Valid())
      reads this, spinner, cursor, checkmark, colorCycle, pulsingSelection
    {
      && spinner.frames == old(spinner.frames) && spinner.frameDuration == old(spinner.frameDuration)
      && (if Elapsed(now, old(spinner.lastUpdate)) >= spinner.frameDuration
          then spinner.currentFrame == NextFrame(old(spinner.currentFrame), |spinner.frames|) && spinner.lastUpdate == now
          else spinner.currentFrame == old(spinner.currentFrame) && spinner.lastUpdate == old(spinner.lastUpdate))
      && cursor.blinkInterval == old(cursor.blinkInterval)
      && (if Elapsed(now, old(cursor.lastBlink)) >= cursor.blinkInterval
          then cursor.visible == !old(cursor.visible) && cursor.lastBlink == now
          else cursor.visible == old(cursor.visible) && cursor.lastBlink == old(cursor.lastBlink))
      && checkmark.frames == old(checkmark.frames) && checkmark.frameDuration == old(checkmark.frameDuration)
      && (if old(checkmark.completed) || Elapsed(now, old(checkmark.lastUpdate)) < checkmark.frameDuration
          then checkmark.currentFrame == old(checkmark.currentFrame) && checkmark.completed == old(checkmark.completed)
               && checkmark.lastUpdate == old(checkmark.lastUpdate)
          else if old(checkmark.currentFrame) < |checkmark.frames| - 1
          then checkmark.currentFrame == old(checkmark.currentFrame) + 1 && !checkmark.completed && checkmark.lastUpdate == now
          else checkmark.currentFrame == old(checkmark.currentFrame) && checkmark.completed
               && checkmark.lastUpdate == old(checkmark.lastUpdate))
      && colorCycle.colors == old(colorCycle.colors)
      && colorCycle.frame == (old(colorCycle.frame) + 1) % (|colorCycle.colors| * FRAMES_PER_COLOR)
      && pulsingSelection.maxFrames == old(pulsingSelection.maxFrames)
      && pulsingSelection.frame == (old(pulsingSelection.frame) + 1) % pulsingSelection.maxFrames
    }

    /** Advances every animation by one tick; the screen and the quit flag are untouched. */
    method Tick(now: int)
      requires Valid()
      modifies spinner, cursor, checkmark, colorCycle, pulsingSelection
      ensures Valid()
      ensures AnimationsTicked(now)
    {
      var _ := spinner.Tick(now);
      var _ := cursor.Tick(now);
      var _ := checkmark.Tick(now);
      colorCycle.Tick();
      pulsingSelection.Tick();
    }

    method Quit()
      modifies this
      ensures shouldQuit && state == old(state)
    {
      shouldQuit := true;
    }

    method GoToUrlInput()
      modifies this
      ensures state == EMPTY_URL_INPUT && shouldQuit == old(shouldQuit)
    {
      state := EMPTY_URL_INPUT;
    }

    method GoToWelcome()
      modifies this
      ensures state == Welcome && shouldQuit == old(shouldQuit)
    {
      state := Welcome;
    }

    method GoToError(errorType: string, message: string, suggestions: seq<string>)
      modifies this
      ensures state == ErrorFrom(old(state), errorType, message, suggestions) && shouldQuit == old(shouldQuit)
    {
      var lastUrl := match state
        case UrlInput(input, _, _, _, _) => Some(input)
        case FetchingInfo(url) => Some(url)
        case Downloading(url, _, _, _) => Some(url)
        case _ => None;
      state := Error(errorType, message, suggestions, lastUrl, 0);
    }

    method GoToHelp()
      modifies this
      ensures state == Help(old(state)) && shouldQuit == old(shouldQuit)
    {
      state := Help(state);
    }

    method GoToSettings(outputDir: string, quality: string, concurrent: nat)
      modifies this
      ensures state == Settings(NewSettings(outputDir, quality, concurrent), old(state)) && shouldQuit == old(shouldQuit)
    {
      state := Settings(NewSettings(outputDir, quality, concurrent), state);
    }

    method BackFromOverlay()
      modifies this
      ensures state == BackFrom(old(state)) && shouldQuit == old(shouldQuit)
    {
      match state {
        case Help(prev) => state := prev;
        case Settings(_, prev) => state := prev;
        case _ =>
      }
    }

    method SelectNextSetting()
      requires StateOk(state)
      modifies this
      ensures state == NextSetting(old(state)) && shouldQuit == old(shouldQuit)
    {
      if state.Settings? && state.settings.selectedIndex < LAST_SETTING {
        state := state.(settings := state.settings.(selectedIndex := state.settings.selectedIndex + 1));
      }
    }

    method SelectPreviousSetting()
      requires StateOk(state)
      modifies this
      ensures state == PreviousSetting(old(state)) && shouldQuit == old(shouldQuit)
    {
      if state.Settings? && state.settings.selectedIndex > 0 {
        state := state.(settings := state.settings.(selectedIndex := state.settings.selectedIndex - 1));
      }
    }

    method UpdateInput(input: string, cursorPos: nat)
      modifies this
      ensures state == WithInput(old(state), input, cursorPos) && shouldQuit == old(shouldQuit)
    {
      if state.UrlInput? {
        var isValid: Option<bool>;
        var message: string;
        if input == [] {
          isValid, message := None, INPUT_PROMPT;
        } else if MentionsYoutube(input) {
          isValid, message := Some(true), VALID_MESSAGE;
        } else {
          isValid, message := Some(false), INVALID_MESSAGE;
        }
        state := state.(input := input, cursorPos := cursorPos, isValid := isValid, validationMessage := message);
      }
    }

    method StartFetchingInfo(url: string)
      modifies this
      ensures state == FetchingInfo(url) && shouldQuit == old(shouldQuit)
    {
      state := FetchingInfo(url);
    }

    /**
     * Shows the fetched formats with the first highlighted. The list must not be empty: moving
     * down computes `len() - 1`, which has no value for an empty list.
     */
    method ShowFormatSelection(url: string, videoInfo: VideoInfo, formats: seq<FormatOption>)
      requires |formats| > 0
      modifies this
      ensures state == FormatSelection(url, videoInfo, formats, 0) && shouldQuit == old(shouldQuit)
    {
      state := FormatSelection(url, videoInfo, formats, 0);
    }

    method SelectNextFormat()
      requires StateOk(state)
      modifies this
      ensures state == NextFormat(old(state)) && shouldQuit == old(shouldQuit)
    {
      if state.FormatSelection? && state.selectedIndex < |state.formats| - 1 {
        state := state.(selectedIndex := state.selectedIndex + 1);
      }
    }

    method SelectPreviousFormat()
      requires StateOk(state)
      modifies this
      ensures state == PreviousFormat(old(state)) && shouldQuit == old(shouldQuit)
    {
      if state.FormatSelection? && state.selectedIndex > 0 {
        state := state.(selectedIndex := state.selectedIndex - 1);
      }
    }

    method StartDownload()
      requires StateOk(state)
      modifies this
      ensures state == DownloadStarted(old(state)) && shouldQuit == old(shouldQuit)
    {
      if state.FormatSelection? {
        var format := state.formats[state.selectedIndex];
        state := Downloading(state.url, state.videoInfo, format, ZERO_PROGRESS);
      }
    }

    method UpdateProgress(p: DownloadProgress)
      modifies this
      ensures state == WithProgress(old(state), p) && shouldQuit == old(shouldQuit)
    {
      if state.Downloading? {
        state := state.(progress := p);
      }
    }

    method DownloadComplete(info: DownloadSuccess)
      modifies this
      ensures state == Success(info) && shouldQuit == old(shouldQuit)
    {
      state := Success(info);
    }
  }
}
