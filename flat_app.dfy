/**
 * The interactive application of the flat tree. Its screens carry the same records as the
 * layered tree's (video description, format entry, progress, success record), but it opens
 * on the welcome screen, prompts with a shorter message, and its error screen keeps no retry
 * count.
 *
 * The flat dispatcher also opens help and settings overlays, moves through the settings
 * rows and asks the application to tick, none of which the flat state enumeration and
 * application define; `Help`, `Settings` and their transitions are added here as the layered
 * tree defines them, and a tick changes nothing.
 */
module FlatApp {
  import opened Wrappers
  import opened Text
  import TuiApp

  type VideoInfo = TuiApp.VideoInfo
  type FormatOption = TuiApp.FormatOption
  type DownloadProgress = TuiApp.DownloadProgress
  type DownloadSuccess = TuiApp.DownloadSuccess
  type DownloadHistory = TuiApp.DownloadHistory
  type SettingsState = TuiApp.SettingsState

  datatype AppState =
    | Welcome
    | UrlInput(input: string, cursorPos: nat, isValid: Option<bool>, validationMessage: string, recentDownloads: seq<DownloadHistory>)
    | FetchingInfo(url: string)
    | FormatSelection(url: string, videoInfo: VideoInfo, formats: seq<FormatOption>, selectedIndex: nat)
    | Downloading(url: string, videoInfo: VideoInfo, format: FormatOption, progress: DownloadProgress)
    | Success(info: DownloadSuccess)
    | Error(errorType: string, message: string, suggestions: seq<string>, lastUrl: Option<string>)
    | Help(previousState: AppState)
    | Settings(settings: SettingsState, previousState: AppState)

  const FLAT_PROMPT: string := "Paste a YouTube URL"

  const EMPTY_URL_INPUT: AppState := UrlInput("", 0, None, FLAT_PROMPT, [])

  function VerdictMessage(v: Option<bool>): (m: string)
    ensures v.None? ==> m == FLAT_PROMPT
    ensures v == Some(true) ==> m == TuiApp.VALID_MESSAGE
    ensures v == Some(false) ==> m == TuiApp.INVALID_MESSAGE
  {
    match v
    case None => FLAT_PROMPT
    case Some(true) => TuiApp.VALID_MESSAGE
    case Some(false) => TuiApp.INVALID_MESSAGE
  }

  /** A selection index inside a non-empty list and a settings row in range, overlays included. */
  ghost predicate StateOk(s: AppState)
  {
    match s
    case FormatSelection(_, _, formats, i) => |formats| > 0 && i < |formats|
    case Help(prev) => StateOk(prev)
    case Settings(settings, prev) => settings.selectedIndex <= TuiApp.LAST_SETTING && StateOk(prev)
    case _ => true
  }

  function LastUrl(s: AppState): (u: Option<string>)
    ensures s.UrlInput? ==> u == Some(s.input)
    ensures s.FetchingInfo? || s.Downloading? ==> u == Some(s.url)
    ensures !(s.UrlInput? || s.FetchingInfo? || s.Downloading?) ==> u.None?
  {
    match s
    case UrlInput(input, _, _, _, _) => Some(input)
    case FetchingInfo(url) => Some(url)
    case Downloading(url, _, _, _) => Some(url)
    case _ => None
  }

  function WithInput(s: AppState, input: string, cursorPos: nat): (r: AppState)
    ensures s.UrlInput? ==> r.UrlInput? && r.input == input && r.cursorPos == cursorPos
                            && r.isValid == TuiApp.InputVerdict(input) && r.validationMessage == VerdictMessage(r.isValid)
                            && r.recentDownloads == s.recentDownloads
    ensures !s.UrlInput? ==> r == s
  {
    if s.UrlInput? then
      var v := TuiApp.InputVerdict(input);
      s.(input := input, cursorPos := cursorPos, isValid := v, validationMessage := VerdictMessage(v))
    else s
  }

  function ErrorFrom(s: AppState, errorType: string, message: string, suggestions: seq<string>): (r: AppState)
    ensures r.Error? && r.errorType == errorType && r.message == message && r.suggestions == suggestions
    ensures r.lastUrl == LastUrl(s)
  {
    Error(errorType, message, suggestions, LastUrl(s))
  }

  function BackFrom(s: AppState): (r: AppState)
    ensures s.Help? || s.Settings? ==> r == s.previousState
    ensures !(s.Help? || s.Settings?) ==> r == s
  {
    match s
    case Help(prev) => prev
    case Settings(_, prev) => prev
    case _ => s
  }

  function NextSetting(s: AppState): (r: AppState)
    requires StateOk(s)
    ensures StateOk(r)
    ensures s.Settings? ==> r.Settings? && r.previousState == s.previousState
                            && r.settings == s.settings.(selectedIndex := r.settings.selectedIndex)
                            && r.settings.selectedIndex == (if s.settings.selectedIndex < TuiApp.LAST_SETTING then s.settings.selectedIndex + 1 else TuiApp.LAST_SETTING)
    ensures !s.Settings? ==> r == s
  {
    if s.Settings? && s.settings.selectedIndex < TuiApp.LAST_SETTING then
      s.(settings := s.settings.(selectedIndex := s.settings.selectedIndex + 1))
    else s
  }

  function PreviousSetting(s: AppState): (r: AppState)
    requires StateOk(s)
    ensures StateOk(r)
    ensures s.Settings? ==> r.Settings? && r.previousState == s.previousState
                            && r.settings == s.settings.(selectedIndex := r.settings.selectedIndex)
                            && r.settings.selectedIndex == (if s.settings.selectedIndex > 0 then s.settings.selectedIndex - 1 else 0)
    ensures !s.Settings? ==> r == s
  {
    if s.Settings? && s.settings.selectedIndex > 0 then
      s.(settings := s.settings.(selectedIndex := s.settings.selectedIndex - 1))
    else s
  }

  function NextFormat(s: AppState): (r: AppState)
    requires StateOk(s)
    ensures StateOk(r)
    ensures s.FormatSelection? ==> r.FormatSelection? && r == s.(selectedIndex := r.selectedIndex)
                                   && r.selectedIndex == (if s.selectedIndex < |s.formats| - 1 then s.selectedIndex + 1 else s.selectedIndex)
    ensures !s.FormatSelection? ==> r == s
  {
    if s.FormatSelection? && s.selectedIndex < |s.formats| - 1 then s.(selectedIndex := s.selectedIndex + 1) else s
  }

  function PreviousFormat(s: AppState): (r: AppState)
    requires StateOk(s)
    ensures StateOk(r)
    ensures s.FormatSelection? ==> r.FormatSelection? && r == s.(selectedIndex := r.selectedIndex)
                                   && r.selectedIndex == (if s.selectedIndex > 0 then s.selectedIndex - 1 else 0)
    ensures !s.FormatSelection? ==> r == s
  {
    if s.FormatSelection? && s.selectedIndex > 0 then s.(selectedIndex := s.selectedIndex - 1) else s
  }

  function DownloadStarted(s: AppState): (r: AppState)
    requires StateOk(s)
    ensures s.FormatSelection? ==> r == Downloading(s.url, s.videoInfo, s.formats[s.selectedIndex], TuiApp.ZERO_PROGRESS)
    ensures !s.FormatSelection? ==> r == s
  {
    if s.FormatSelection? then Downloading(s.url, s.videoInfo, s.formats[s.selectedIndex], TuiApp.ZERO_PROGRESS) else s
  }

  function WithProgress(s: AppState, p: DownloadProgress): (r: AppState)
    ensures s.Downloading? ==> r == s.(progress := p)
    ensures !s.Downloading? ==> r == s
  {
    if s.Downloading? then s.(progress := p) else s
  }

  /** Clamped navigation never leaves the list, from any well-formed selection, in either direction. */
  lemma {:induction false} FormatNavigationClamped(s: AppState, steps: seq<bool>)
    requires StateOk(s) && s.FormatSelection?
    ensures var r := Navigate(s, steps); r.FormatSelection? && r.formats == s.formats && r.selectedIndex < |s.formats|
  {
    NavigateKeeps(s, steps);
  }

  /** Moves down for each `true`, up for each `false`. */
  function Navigate(s: AppState, steps: seq<bool>): (r: AppState)
    requires StateOk(s)
    ensures StateOk(r)
    decreases |steps|
  {
    if steps == [] then s
    else Navigate(if steps[0] then NextFormat(s) else PreviousFormat(s), steps[1..])
  }

  lemma {:induction false} NavigateKeeps(s: AppState, steps: seq<bool>)
    requires StateOk(s) && s.FormatSelection?
    ensures Navigate(s, steps).FormatSelection? && Navigate(s, steps).formats == s.formats
    decreases |steps|
  {
    if steps != [] {
      NavigateKeeps(if steps[0] then NextFormat(s) else PreviousFormat(s), steps[1..]);
    }
  }

  class App {
    var state: AppState
    var shouldQuit: bool

    ghost predicate Valid()
      reads this
    {
      StateOk(state)
    }

    /** The flat application opens on the welcome screen. */
    constructor ()
      ensures Valid() && state == Welcome && !shouldQuit
    {
      state := Welcome;
      shouldQuit := false;
    }

    method Quit()
      modifies this
      ensures shouldQuit && state == old(state)
    {
      shouldQuit := true;
    }

    /** Every route to the URL screen leaves it empty, with the short prompt. */
    method GoToUrlInput()
      modifies this
      ensures state == EMPTY_URL_INPUT && shouldQuit == old(shouldQuit)
    {
      state := EMPTY_URL_INPUT;
    }

    method GoToWelcome()
      modifies this
      ensures state == Welcome && shouldQuit == old(shouldQuit)
    {
      state := Welcome;
    }

    method GoToError(errorType: string, message: string, suggestions: seq<string>)
      modifies this
      ensures state == ErrorFrom(old(state), errorType, message, suggestions) && shouldQuit == old(shouldQuit)
    {
      var lastUrl := match state
        case UrlInput(input, _, _, _, _) => Some(input)
        case FetchingInfo(url) => Some(url)
        case Downloading(url, _, _, _) => Some(url)
        case _ => None;
      state := Error(errorType, message, suggestions, lastUrl);
    }

    method GoToHelp()
      modifies this
      ensures state == Help(old(state)) && shouldQuit == old(shouldQuit)
    {
      state := Help(state);
    }

    method GoToSettings(outputDir: string, quality: string, concurrent: nat)
      modifies this
      ensures state == Settings(TuiApp.NewSettings(outputDir, quality, concurrent), old(state)) && shouldQuit == old(shouldQuit)
    {
      state := Settings(TuiApp.NewSettings(outputDir, quality, concurrent), state);
    }

    method BackFromOverlay()
      modifies this
      ensures state == BackFrom(old(state)) && shouldQuit == old(shouldQuit)
    {
      match state {
        case Help(prev) => state := prev;
        case Settings(_, prev) => state := prev;
        case _ =>
      }
    }

    method SelectNextSetting()
      requires StateOk(state)
      modifies this
      ensures state == NextSetting(old(state)) && shouldQuit == old(shouldQuit)
    {
      if state.Settings? && state.settings.selectedIndex < TuiApp.LAST_SETTING {
        state := state.(settings := state.settings.(selectedIndex := state.settings.selectedIndex + 1));
      }
    }

    method SelectPreviousSetting()
      requires StateOk(state)
      modifies this
      ensures state == PreviousSetting(old(state)) && shouldQuit == old(shouldQuit)
    {
      if state.Settings? && state.settings.selectedIndex > 0 {
        state := state.(settings := state.settings.(selectedIndex := state.settings.selectedIndex - 1));
      }
    }

    /** The flat application has no animations: a tick changes nothing. */
    method Tick()
      ensures state == old(state) && shouldQuit == old(shouldQuit)
    {
    }

    method UpdateInput(input: string, cursorPos: nat)
      modifies this
      ensures state == WithInput(old(state), input, cursorPos) && shouldQuit == old(shouldQuit)
    {
      if state.UrlInput? {
        var isValid: Option<bool>;
        var message: string;
        if input == [] {
          isValid, message := None, FLAT_PROMPT;
        } else if TuiApp.MentionsYoutube(input) {
          isValid, message := Some(true), TuiApp.VALID_MESSAGE;
        } else {
          isValid, message := Some(false), TuiApp.INVALID_MESSAGE;
        }
        state := state.(input := input, cursorPos := cursorPos, isValid := isValid, validationMessage := message);
      }
    }

    method StartFetchingInfo(url: string)
      modifies this
      ensures state == FetchingInfo(url) && shouldQuit == old(shouldQuit)
    {
      state := FetchingInfo(url);
    }

    /** The list must not be empty: moving down computes `len() - 1`. */
    method ShowFormatSelection(url: string, videoInfo: VideoInfo, formats: seq<FormatOption>)
      requires |formats| > 0
      modifies this
      ensures state == FormatSelection(url, videoInfo, formats, 0) && shouldQuit == old(shouldQuit)
    {
      state := FormatSelection(url, videoInfo, formats, 0);
    }

    method SelectNextFormat()
      requires StateOk(state)
      modifies this
      ensures state == NextFormat(old(state)) && shouldQuit == old(shouldQuit)
    {
      if state.FormatSelection? && state.selectedIndex < |state.formats| - 1 {
        state := state.(selectedIndex := state.selectedIndex + 1);
      }
    }

    method SelectPreviousFormat()
      requires StateOk(state)
      modifies this
      ensures state == PreviousFormat(old(state)) && shouldQuit == old(shouldQuit)
    {
      if state.FormatSelection? && state.selectedIndex > 0 {
        state := state.(selectedIndex := state.selectedIndex - 1);
      }
    }

    method StartDownload()
      requires StateOk(state)
      modifies this
      ensures state == DownloadStarted(old(state)) && shouldQuit == old(shouldQuit)
    {
      if state.FormatSelection? {
        var format := state.formats[state.selectedIndex];
        state := Downloading(state.url, state.videoInfo, format, TuiApp.ZERO_PROGRESS);
      }
    }

    method UpdateProgress(p: DownloadProgress)
      modifies this
      ensures state == WithProgress(old(state), p) && shouldQuit == old(shouldQuit)
    {
      if state.Downloading? {
        state := state.(progress := p);
      }
    }

    method DownloadComplete(info: DownloadSuccess)
      modifies this
      ensures state == Success(info) && shouldQuit == old(shouldQuit)
    {
      state := Success(info);
    }
  }
}
