/**
 * The flat tree's event dispatcher. It routes keys as the layered dispatcher does, but it
 * has no paste event, and where the layered one fetches and downloads it runs two
 * stand-ins inline: a fetch that installs a fixed description and five fixed formats,
 * and a download that reports a hundred and one fixed progress steps and then succeeds.
 *
 * The flat key predicates are taken to be those of the layered tree; the flat event module
 * is not part of this model. The pauses between simulated steps are left out.
 */
module FlatTui {
  import opened Wrappers
  import opened Text
  import opened TuiEvents
  import TuiApp
  import opened FlatApp

  /** The flat event set: no paste. */
  datatype FlatEvent = FlatKey(key: KeyEvent) | FlatResize(width: nat, height: nat) | FlatTick

  // ---------------------------------------------------------------- the stand-ins

  const SIMULATED_INFO: VideoInfo :=
    TuiApp.VideoInfo("Example Video Title", "Example Channel", "5:30", Some("1,234,567"), Some("2024-01-15"))

  const SIMULATED_FORMATS: seq<FormatOption> := [
    TuiApp.FormatOption("Best Quality", "1920x1080", "~500 MB", "best"),
    TuiApp.FormatOption("1080p", "1920x1080", "~450 MB", "1080p"),
    TuiApp.FormatOption("720p", "1280x720", "~200 MB", "720p"),
    TuiApp.FormatOption("480p", "854x480", "~100 MB", "480p"),
    TuiApp.FormatOption("Audio Only", "N/A", "~5 MB", "audio")
  ]

  const SIMULATED_SUCCESS: DownloadSuccess :=
    TuiApp.DownloadSuccess("example_video.mp4", "500 MB", "5 seconds", "./downloads")

  /** The number of the last simulated step. */
  const LAST_STEP: nat := 100

  /** The simulated fetch: the fixed list, first entry highlighted, only if still fetching. */
  function SimulatedFetch(s: AppState): (r: AppState)
    ensures s.FetchingInfo? ==> r == FormatSelection(s.url, SIMULATED_INFO, SIMULATED_FORMATS, 0)
    ensures !s.FetchingInfo? ==> r == s
  {
    if s.FetchingInfo? then FormatSelection(s.url, SIMULATED_INFO, SIMULATED_FORMATS, 0) else s
  }

  /** Step `i` of the simulated download. */
  function SimulatedStep(i: nat): (p: DownloadProgress)
    requires i <= LAST_STEP
    ensures p.percentage == i as real && p.downloadedBytes == 5000000 * i && p.totalBytes == 500000000
    ensures p.downloadedBytes <= p.totalBytes && p.eta == Some(LAST_STEP - i) && p.elapsed == i
  {
    TuiApp.DownloadProgress(i as real, 5000000 * i, 500000000, 5000000.0, Some(LAST_STEP - i), i)
  }

  /** The screen after steps `0..n` were offered to it. */
  function SimulatedThrough(s: AppState, n: nat): (r: AppState)
    requires n <= LAST_STEP + 1
  {
    if n == 0 then s else WithProgress(SimulatedThrough(s, n - 1), SimulatedStep(n - 1))
  }

  /** The steps land only on the download screen, which ends up showing the last one offered. */
  lemma {:induction false} SimulatedThroughGuarded(s: AppState, n: nat)
    requires n <= LAST_STEP + 1
    ensures !s.Downloading? ==> SimulatedThrough(s, n) == s
    ensures s.Downloading? && n > 0 ==> SimulatedThrough(s, n) == s.(progress := SimulatedStep(n - 1))
    ensures s.Downloading? ==> SimulatedThrough(s, n).Downloading?
  {
    if n > 0 {
      SimulatedThroughGuarded(s, n - 1);
    }
  }

  /**
   * `simulate_download`: steps 0 to 100, each written only while the screen is the download
   * screen, then success whatever the screen. `shown` is the screen after each step.
   */
  method SimulateDownload(app: App) returns (shown: seq<AppState>)
    modifies app
    ensures |shown| == LAST_STEP + 1
    ensures forall i :: 0 <= i <= LAST_STEP ==> shown[i] == SimulatedThrough(old(app.state), i + 1)
    ensures app.state == Success(SIMULATED_SUCCESS) && app.shouldQuit == old(app.shouldQuit)
  {
    shown := [];
    var i := 0;
    while i <= LAST_STEP
      invariant 0 <= i <= LAST_STEP + 1 && |shown| == i
      invariant app.state == SimulatedThrough(old(app.state), i)
      invariant forall k :: 0 <= k < i ==> shown[k] == SimulatedThrough(old(app.state), k + 1)
      invariant app.shouldQuit == old(app.shouldQuit)
    {
      if app.state.Downloading? {
        app.UpdateProgress(SimulatedStep(i));
      }
      i := i + 1;
      shown := shown + [app.state];
    }
    app.DownloadComplete(SIMULATED_SUCCESS);
  }

  // ---------------------------------------------------------------- dispatch

  datatype FlatStepResult = FlatStepResult(state: AppState, quit: bool)

  function Stay(s: AppState): FlatStepResult
  {
    FlatStepResult(s, false)
  }

  ghost predicate CursorOk(s: AppState)
  {
    match s
    case UrlInput(input, cursorPos, _, _, _) => cursorPos <= |input|
    case Help(prev) => CursorOk(prev)
    case Settings(_, prev) => CursorOk(prev)
    case _ => true
  }

  ghost predicate Ready(s: AppState)
  {
    StateOk(s) && CursorOk(s)
  }

  predicate IsHelpKey(k: KeyEvent)
  {
    (k.code == Char('h') || k.code == Char('?')) && k.modifiers == {}
  }

  predicate IsCharKey(k: KeyEvent, lower: char, upper: char)
  {
    k.code == Char(lower) || k.code == Char(upper)
  }

  function UrlInputKey(s: AppState, k: KeyEvent): FlatStepResult
    requires s.UrlInput? && s.cursorPos <= |s.input|
  {
    match k.code
    case Char(c) =>
      if k.modifiers == {} then Stay(WithInput(s, s.input[..s.cursorPos] + [c] + s.input[s.cursorPos..], s.cursorPos + 1))
      else if c == 'u' && Control in k.modifiers then Stay(WithInput(s, "", 0))
      else Stay(s)
    case Backspace =>
      if s.cursorPos > 0 then Stay(WithInput(s, s.input[..s.cursorPos - 1] + s.input[s.cursorPos..], s.cursorPos - 1)) else Stay(s)
    case Enter =>
      if TuiApp.MentionsYoutube(s.input) then Stay(SimulatedFetch(FetchingInfo(s.input))) else Stay(s)
    case Esc => Stay(Welcome)
    case _ => Stay(s)
  }

  /** Enter and `a` both start the highlighted format and run the simulated download. */
  function FormatSelectionKey(s: AppState, k: KeyEvent): FlatStepResult
    requires s.FormatSelection? && StateOk(s)
  {
    match k.code
    case Up => Stay(PreviousFormat(s))
    case Down => Stay(NextFormat(s))
    case Enter => Stay(Success(SIMULATED_SUCCESS))
    case Char(c) => if c == 'a' || c == 'A' then Stay(Success(SIMULATED_SUCCESS)) else Stay(s)
    case Esc => Stay(EMPTY_URL_INPUT)
    case _ => Stay(s)
  }

  function KeyStep(s: AppState, k: KeyEvent): FlatStepResult
    requires Ready(s)
  {
    if IsQuitKey(k) then FlatStepResult(s, true)
    else if IsHelpKey(k) && !(s.Help? || s.Settings? || s.UrlInput?) then Stay(Help(s))
    else match s
      case Welcome =>
        if k.code == Enter then Stay(EMPTY_URL_INPUT)
        else if IsCharKey(k, 's', 'S') then Stay(Settings(TuiApp.NewSettings("./downloads", "best", 3), s))
        else Stay(s)
      case UrlInput(_, _, _, _, _) => UrlInputKey(s, k)
      case FetchingInfo(_) => if IsBackKey(k) then Stay(EMPTY_URL_INPUT) else Stay(s)
      case FormatSelection(_, _, _, _) => FormatSelectionKey(s, k)
      case Downloading(_, _, _, _) =>
        if k == KeyEvent(Char('c'), {Control}) then Stay(EMPTY_URL_INPUT) else Stay(s)
      case Success(_) => if IsCharKey(k, 'n', 'N') then Stay(EMPTY_URL_INPUT) else Stay(s)
      case Error(_, _, _, _) =>
        if IsCharKey(k, 'n', 'N') || IsCharKey(k, 'r', 'R') then Stay(EMPTY_URL_INPUT) else Stay(s)
      case Help(_) => if IsBackKey(k) then Stay(BackFrom(s)) else Stay(s)
      case Settings(_, _) =>
        if k.code == Up then Stay(PreviousSetting(s))
        else if k.code == Down then Stay(NextSetting(s))
        else if k.code == Esc then Stay(BackFrom(s))
        else Stay(s)
  }

  /** The flat `handle_event` as a function of the screen. */
  function Step(s: AppState, e: FlatEvent): (r: FlatStepResult)
    requires Ready(s)
    ensures Ready(r.state)
  {
    match e
    case FlatKey(k) => KeyStep(s, k)
    case FlatResize(_, _) => Stay(s)
    case FlatTick => Stay(s)
  }

  // ---------------------------------------------------------------- properties of dispatch

  /** Quit keys quit on every screen before the screen sees them. */
  lemma {:induction false} QuitOnEveryScreen(s: AppState, k: KeyEvent)
    requires Ready(s) && IsQuitKey(k)
    ensures Step(s, FlatKey(k)) == FlatStepResult(s, true)
  {
  }

  /** Help opens over exactly the screens other than help, settings and the URL screen. */
  lemma {:induction false} HelpKeyGating(s: AppState, k: KeyEvent)
    requires Ready(s) && IsHelpKey(k)
    ensures (Step(s, FlatKey(k)).state == Help(s)) <==> !(s.Help? || s.Settings? || s.UrlInput?)
  {
    if s.Help? || s.Settings? || s.UrlInput? {
      assert s < Help(s);
      assert k.code.Char?;
    }
  }

  /** In the format list `a` does exactly what Enter does. */
  lemma {:induction false} AudioKeyIsEnter(s: AppState, m: set<Modifier>, m2: set<Modifier>)
    requires Ready(s) && s.FormatSelection?
    requires !IsQuitKey(KeyEvent(Char('a'), m)) && !IsHelpKey(KeyEvent(Char('a'), m))
    ensures Step(s, FlatKey(KeyEvent(Char('a'), m))) == Step(s, FlatKey(KeyEvent(Enter, m2)))
  {
  }

  /** Escape on the URL screen returns to the welcome screen. */
  lemma {:induction false} EscapeToWelcome(s: AppState, m: set<Modifier>)
    requires Ready(s) && s.UrlInput?
    ensures Step(s, FlatKey(KeyEvent(Esc, m))).state == Welcome
  {
  }

  /**
   * Enter on the URL screen leaves it exactly when the input mentions a YouTube host, for the
   * fixed list with the first entry highlighted.
   */
  lemma {:induction false} EnterNeedsYoutube(s: AppState, m: set<Modifier>)
    requires Ready(s) && s.UrlInput?
    ensures var r := Step(s, FlatKey(KeyEvent(Enter, m))).state;
            (TuiApp.MentionsYoutube(s.input) ==> r == FormatSelection(s.input, SIMULATED_INFO, SIMULATED_FORMATS, 0))
            && (!TuiApp.MentionsYoutube(s.input) ==> r == s)
  {
  }

  /** The fixed list: five entries, "best" first and "audio" last. */
  lemma SimulatedFormatsShape()
    ensures |SIMULATED_FORMATS| == 5
    ensures SIMULATED_FORMATS[0].formatId == "best" && SIMULATED_FORMATS[4].formatId == "audio"
  {
  }

  /** Typing a plain character inserts it at the cursor and moves the cursor one place on. */
  lemma {:induction false} TypingInserts(s: AppState, c: char)
    requires Ready(s) && s.UrlInput? && !IsQuitKey(KeyEvent(Char(c), {}))
    ensures var r := Step(s, FlatKey(KeyEvent(Char(c), {}))).state;
            r.UrlInput? && r.input == s.input[..s.cursorPos] + [c] + s.input[s.cursorPos..] && r.cursorPos == s.cursorPos + 1
            && r.cursorPos <= |r.input|
  {
  }

  // ---------------------------------------------------------------- the cursor as written

  /**
   * The URL screen's keys as the source handles them: `String::insert` and `String::remove`
   * read the cursor as a byte offset, while typing and deleting move it by one place. The
   * insert panics off a character boundary, the remove also at the end of the input; `None`
   * is that panic. Every other key does what `UrlInputKey` says.
   */
  function UrlInputKeyAsWritten(s: AppState, k: KeyEvent): (r: Option<FlatStepResult>)
    requires s.UrlInput? && s.cursorPos <= |s.input|
    ensures r.None? ==> (k.code.Char? && k.modifiers == {}) || (k.code == Backspace && s.cursorPos > 0)
    ensures k.code.Char? && k.modifiers == {} ==> (r.Some? <==> CharIndexAt(s.input, s.cursorPos).Some?)
    ensures r.Some? && k.code.Char? && k.modifiers == {} ==>
              r.value.state.UrlInput? && r.value.state.cursorPos == s.cursorPos + 1 && |r.value.state.input| == |s.input| + 1
  {
    match k.code
    case Char(c) =>
      if k.modifiers == {} then
        match InsertAtByte(s.input, s.cursorPos, c)
        case None => None
        case Some(t) => Some(Stay(WithInput(s, t, s.cursorPos + 1)))
      else Some(UrlInputKey(s, k))
    case Backspace =>
      if s.cursorPos > 0 then
        match RemoveAtByte(s.input, s.cursorPos - 1)
        case None => None
        case Some(t) => Some(Stay(WithInput(s, t, s.cursorPos - 1)))
      else Some(UrlInputKey(s, k))
    case _ => Some(UrlInputKey(s, k))
  }

  /** Typing 'é' and then 'a' on the empty URL screen: the first key lands, the second panics. */
  lemma TypingAfterAccentPanics()
    ensures UrlInputKeyAsWritten(EMPTY_URL_INPUT, KeyEvent(Char('\U{e9}'), {}))
            == Some(Stay(WithInput(EMPTY_URL_INPUT, "\U{e9}", 1)))
    ensures UrlInputKeyAsWritten(WithInput(EMPTY_URL_INPUT, "\U{e9}", 1), KeyEvent(Char('a'), {})) == None
  {
    var e: string := "";
    assert CharIndexAt(e, 0) == Some(0);
    assert e[..0] + ['\U{e9}'] + e[0..] == "\U{e9}";
    assert Utf8Len('\U{e9}') == 2;
  }

  /** On ASCII input the source's byte cursor and the model's character cursor agree. */
  lemma {:induction false} AsWrittenAgreesOnAscii(s: AppState, k: KeyEvent)
    requires s.UrlInput? && s.cursorPos <= |s.input| && IsAscii(s.input)
    ensures UrlInputKeyAsWritten(s, k) == Some(UrlInputKey(s, k))
  {
    if k.code == Backspace && s.cursorPos > 0 {
      assert s.input[s.cursorPos - 1 + 1..] == s.input[s.cursorPos..];
    }
  }

  // ---------------------------------------------------------------- the application

  /** The flat `handle_event` on the application, tied to `Step`. */
  method HandleEvent(app: App, e: FlatEvent)
    requires app.Valid() && CursorOk(app.state)
    modifies app
    ensures app.Valid() && CursorOk(app.state)
    ensures app.state == Step(old(app.state), e).state
    ensures app.shouldQuit == (old(app.shouldQuit) || Step(old(app.state), e).quit)
  {
    var s := app.state;
    match e {
      case FlatResize(_, _) =>
      case FlatTick =>
        app.Tick();
      case FlatKey(k) =>
        if IsQuitKey(k) {
          app.Quit();
        } else if IsHelpKey(k) && !(s.Help? || s.Settings? || s.UrlInput?) {
          app.GoToHelp();
        } else {
          ScreenKey(app, k);
        }
    }
  }

  method ScreenKey(app: App, k: KeyEvent)
    requires app.Valid() && CursorOk(app.state)
    requires !IsQuitKey(k) && !(IsHelpKey(k) && !(app.state.Help? || app.state.Settings? || app.state.UrlInput?))
    modifies app
    ensures app.state == KeyStep(old(app.state), k).state
    ensures app.shouldQuit == old(app.shouldQuit)
  {
    var s := app.state;
    match s {
      case Welcome =>
        if k.code == Enter {
          app.GoToUrlInput();
        } else if IsCharKey(k, 's', 'S') {
          app.GoToSettings("./downloads", "best", 3);
        }
      case UrlInput(input, cursorPos, _, _, _) =>
        match k.code {
          case Char(c) =>
            if k.modifiers == {} {
              app.UpdateInput(input[..cursorPos] + [c] + input[cursorPos..], cursorPos + 1);
            } else if c == 'u' && Control in k.modifiers {
              app.UpdateInput("", 0);
            }
          case Backspace =>
            if cursorPos > 0 {
              app.UpdateInput(input[..cursorPos - 1] + input[cursorPos..], cursorPos - 1);
            }
          case Enter =>
            if TuiApp.MentionsYoutube(input) {
              app.StartFetchingInfo(input);
              SimulateVideoFetch(app);
            }
          case Esc =>
            app.GoToWelcome();
          case _ =>
        }
      case FetchingInfo(_) =>
        if IsBackKey(k) {
          app.GoToUrlInput();
        }
      case FormatSelection(_, _, _, _) =>
        if k.code == Up {
          app.SelectPreviousFormat();
        } else if k.code == Down {
          app.SelectNextFormat();
        } else if k.code == Enter || IsCharKey(k, 'a', 'A') {
          app.StartDownload();
          var _ := SimulateDownload(app);
        } else if k.code == Esc {
          app.GoToUrlInput();
        }
      case Downloading(_, _, _, _) =>
        // Ctrl+C, the cancel key here, quits before the screen sees it.
      case Success(_) =>
        if IsCharKey(k, 'n', 'N') {
          app.GoToUrlInput();
        }
      case Error(_, _, _, _) =>
        if IsCharKey(k, 'n', 'N') || IsCharKey(k, 'r', 'R') {
          app.GoToUrlInput();
        }
      case Help(_) =>
        if IsBackKey(k) {
          app.BackFromOverlay();
        }
      case Settings(_, _) =>
        if k.code == Up {
          app.SelectPreviousSetting();
        } else if k.code == Down {
          app.SelectNextSetting();
        } else if k.code == Esc {
          app.BackFromOverlay();
        }
    }
  }

  /** `simulate_video_fetch`: installs the fixed list only if the screen still waits for it. */
  method SimulateVideoFetch(app: App)
    modifies app
    ensures app.state == SimulatedFetch(old(app.state)) && app.shouldQuit == old(app.shouldQuit)
  {
    if app.state.FetchingInfo? {
      app.ShowFormatSelection(app.state.url, SIMULATED_INFO, SIMULATED_FORMATS);
    }
  }
}
