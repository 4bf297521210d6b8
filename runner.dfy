/**
 * The event loop's dispatcher of the layered interface: what each key press, paste and tick
 * does on each screen, the format list built from a fetched description, and how a
 * download's progress samples and outcome land on the application.
 *
 * `Step` states the effect of one event as a function of the screen; `HandleEvent` performs
 * it on an `App` through the application's own methods and is tied to `Step`. The fetch the
 * dispatcher starts on Enter happens inside one event; its outcome is an input. A download
 * runs apart from the dispatcher; here it is `PerformDownload`, applied after the event that
 * requested it. Rendering a number with a fixed count of decimals (Rust's `{:.N}`) is left
 * to the parameter `fixed`.
 */
module TuiRunner {
  import opened Wrappers
  import opened Text
  import opened Shared
  import opened Sequences
  import opened ErrorText
  import opened TuiEvents
  import opened TuiApp
  import opened DL = Downloader
  import opened ProgressParser

  /** `fixed(x, n)` is the text of `x` with `n` decimals. */
  type Fixed = (real, nat) -> string

  // ---------------------------------------------------------------- the format list

  const BEST_OPTION: FormatOption := FormatOption("Best Quality", "Auto", "Best available", "best")
  const AUDIO_OPTION: FormatOption := FormatOption("Audio Only (MP3)", "N/A", "~5-10 MB", "audio")

  /** The video formats on offer: those with a video stream, tallest first, at most five. */
  function ListedVideoFormats(fs: seq<Format>): (r: seq<Format>)
    ensures |r| <= DEFAULT_VIDEO_FORMAT_COUNT
  {
    TallestVideoFormats(fs, DEFAULT_VIDEO_FORMAT_COUNT)
  }

  /** The entry for one video format: its resolution as label, its size in MB with one decimal. */
  function OptionFor(f: Format, fixed: Fixed): (o: FormatOption)
    ensures o.formatId == f.formatId && o.labelText == o.resolution
    ensures f.resolution.None? ==> o.resolution == "Unknown"
    ensures f.filesize.None? ==> o.fileSize == "Unknown"
  {
    var res := f.resolution.GetOr("Unknown");
    var size := if f.filesize.Some? then fixed(f.filesize.value as real / 1000000.0, 1) + " MB" else "Unknown";
    FormatOption(res, res, size, f.formatId)
  }

  /** The entries for the listed video formats, one per format, in order. */
  function VideoOptions(l: seq<Format>, fixed: Fixed): (r: seq<FormatOption>)
    ensures |r| == |l| && forall i :: 0 <= i < |l| ==> r[i] == OptionFor(l[i], fixed)
  {
    if l == [] then [] else VideoOptions(l[..|l| - 1], fixed) + [OptionFor(l[|l| - 1], fixed)]
  }

  /** The list offered after a fetch: best first, the listed video formats, audio last. */
  function FetchedFormats(fs: seq<Format>, fixed: Fixed): seq<FormatOption>
  {
    [BEST_OPTION] + VideoOptions(ListedVideoFormats(fs), fixed) + [AUDIO_OPTION]
  }

  lemma {:induction false} VideoOptionsSnoc(l: seq<Format>, i: nat, fixed: Fixed)
    requires i < |l|
    ensures VideoOptions(l[..i + 1], fixed) == VideoOptions(l[..i], fixed) + [OptionFor(l[i], fixed)]
  {
    assert l[..i + 1][..i] == l[..i];
  }

  /** Builds the list by pushes, as the fetch does. */
  method BuildFormatList(fs: seq<Format>, fixed: Fixed) returns (formats: seq<FormatOption>)
    ensures formats == FetchedFormats(fs, fixed)
  {
    formats := [BEST_OPTION];
    var listed := ListedVideoFormats(fs);
    var i := 0;
    while i < |listed|
      invariant 0 <= i <= |listed|
      invariant formats == [BEST_OPTION] + VideoOptions(listed[..i], fixed)
    {
      VideoOptionsSnoc(listed, i, fixed);
      formats := formats + [OptionFor(listed[i], fixed)];
      i := i + 1;
    }
    assert listed[..i] == listed;
    formats := formats + [AUDIO_OPTION];
  }

  /**
   * The listed formats all have a video stream, run tallest first, and no video format left
   * off is taller than one listed.
   */
  lemma {:induction false} ListedVideoFormatsShape(fs: seq<Format>)
    ensures var l := ListedVideoFormats(fs);
            forall i :: 0 <= i < |l| ==> IsVideoFormat(l[i])
    ensures var l := ListedVideoFormats(fs);
            forall i, j :: 0 <= i < j < |l| ==> Height(l[i]) >= Height(l[j])
    ensures var l := ListedVideoFormats(fs);
            forall i, x :: 0 <= i < |l| && x in multiset(Filter(fs, IsVideoFormat)) - multiset(l) ==> Height(x) <= Height(l[i])
  {
    TallestVideoFormatsShape(fs, DEFAULT_VIDEO_FORMAT_COUNT);
  }

  /**
   * Between two and seven entries, "best" first and "audio" last, and in between one entry
   * per listed video format, in the listed order, keeping its format id.
   */
  lemma {:induction false} FetchedFormatsShape(fs: seq<Format>, fixed: Fixed)
    ensures var r := FetchedFormats(fs, fixed);
            2 <= |r| <= 7 && r[0] == BEST_OPTION && r[|r| - 1] == AUDIO_OPTION
    ensures var r := FetchedFormats(fs, fixed);
            var l := ListedVideoFormats(fs);
            |r| == |l| + 2 && forall i :: 0 <= i < |l| ==> r[i + 1] == OptionFor(l[i], fixed) && r[i + 1].formatId == l[i].formatId
  {
    var l := ListedVideoFormats(fs);
    assert FetchedFormats(fs, fixed) == [BEST_OPTION] + VideoOptions(l, fixed) + [AUDIO_OPTION];
    FramedOptions(l, fixed);
  }

  lemma {:induction false} FramedOptions(l: seq<Format>, fixed: Fixed)
    requires |l| <= DEFAULT_VIDEO_FORMAT_COUNT
    ensures var r := [BEST_OPTION] + VideoOptions(l, fixed) + [AUDIO_OPTION];
            2 <= |r| <= 7 && r[0] == BEST_OPTION && r[|r| - 1] == AUDIO_OPTION && |r| == |l| + 2
            && forall i :: 0 <= i < |l| ==> r[i + 1] == OptionFor(l[i], fixed) && r[i + 1].formatId == l[i].formatId
  {
    var m := VideoOptions(l, fixed);
    var r := [BEST_OPTION] + m + [AUDIO_OPTION];
    forall i | 0 <= i < |l| ensures r[i + 1] == OptionFor(l[i], fixed) {
      assert r[i + 1] == m[i];
    }
  }

  // ---------------------------------------------------------------- one event

  datatype DownloadRequest = DownloadRequest(url: string, audioOnly: bool)

  /** The effect of one event: the new screen, whether quit was requested, the download to start. */
  datatype StepResult = StepResult(state: AppState, quit: bool, spawn: Option<DownloadRequest>)

  function Stay(s: AppState): StepResult
  {
    StepResult(s, false, None)
  }

  const SETTINGS_OUTPUT_DIR: string := "./downloads"
  const SETTINGS_QUALITY: string := "best"
  const SETTINGS_CONCURRENT: nat := 3

  const FETCH_SUGGESTIONS: seq<string> := ["Check your internet connection", "Verify the URL is correct", "Try updating yt-dlp"]
  const DOWNLOAD_SUGGESTIONS: seq<string> := ["Check your internet connection", "Verify the video is still available", "Try a different quality or format"]

  /** Every text cursor lies within its input (on every screen an overlay hides, too). */
  ghost predicate CursorOk(s: AppState)
  {
    match s
    case UrlInput(input, cursorPos, _, _, _) => cursorPos <= |input|
    case Help(prev) => CursorOk(prev)
    case Settings(_, prev) => CursorOk(prev)
    case _ => true
  }

  ghost predicate Ready(s: AppState)
  {
    StateOk(s) && CursorOk(s)
  }

  /** `h` or `?` with no modifier. */
  predicate IsHelpKey(k: KeyEvent)
  {
    (k.code == Char('h') || k.code == Char('?')) && k.modifiers == {}
  }

  predicate IsCharKey(k: KeyEvent, lower: char, upper: char)
  {
    k.code == Char(lower) || k.code == Char(upper)
  }

  /** Inserting text into the input at the cursor. */
  function InsertAt(input: string, cursorPos: nat, text: string): (r: string)
    requires cursorPos <= |input|
    ensures |r| == |input| + |text| && r[..cursorPos] == input[..cursorPos]
    ensures r[cursorPos..cursorPos + |text|] == text && r[cursorPos + |text|..] == input[cursorPos..]
  {
    input[..cursorPos] + text + input[cursorPos..]
  }

  /** Removing the character at a position of the input. */
  function RemoveAt(input: string, i: nat): (r: string)
    requires i < |input|
    ensures |r| == |input| - 1 && r[..i] == input[..i] && r[i..] == input[i + 1..]
  {
    input[..i] + input[i + 1..]
  }

  /** The result of the fetch started on Enter, applied to the screen it finds. */
  function ApplyFetch(s: AppState, url: string, fetched: Result<VideoMetadata, YtdlError>, fixed: Fixed): (r: AppState)
  {
    match fetched
    case Ok(meta) =>
      if s.FetchingInfo? then FormatSelection(url, DisplayInfo(meta), FetchedFormats(meta.formats, fixed), 0) else s
    case Err(e) => ErrorFrom(s, "Fetch Error", "Failed to fetch video information: " + Display(e), FETCH_SUGGESTIONS)
  }

  /** A key press on the URL screen. */
  function UrlInputKey(s: AppState, k: KeyEvent, fetched: Result<VideoMetadata, YtdlError>, fixed: Fixed): StepResult
    requires s.UrlInput? && s.cursorPos <= |s.input|
  {
    match k.code
    case Char(c) =>
      if k.modifiers == {} then Stay(WithInput(s, InsertAt(s.input, s.cursorPos, [c]), s.cursorPos + 1))
      else if c == 'u' && Control in k.modifiers then Stay(WithInput(s, "", 0))
      else Stay(s)
    case Backspace =>
      if s.cursorPos > 0 then Stay(WithInput(s, RemoveAt(s.input, s.cursorPos - 1), s.cursorPos - 1)) else Stay(s)
    case Enter =>
      if MentionsYoutube(s.input) then Stay(ApplyFetch(FetchingInfo(s.input), s.input, fetched, fixed)) else Stay(s)
    case Esc => Stay(Welcome)
    case _ => Stay(s)
  }

  /** A key press on the format list: move, download the highlighted entry or audio, or go back. */
  function FormatSelectionKey(s: AppState, k: KeyEvent): StepResult
    requires s.FormatSelection? && StateOk(s)
  {
    match k.code
    case Up => Stay(PreviousFormat(s))
    case Down => Stay(NextFormat(s))
    case Enter =>
      var d := DownloadStarted(s);
      StepResult(d, false, Some(DownloadRequest(s.url, d.format.formatId == "audio")))
    case Char(c) =>
      if c == 'a' || c == 'A' then StepResult(DownloadStarted(s), false, Some(DownloadRequest(s.url, true)))
      else Stay(s)
    case Esc => Stay(EMPTY_URL_INPUT)
    case _ => Stay(s)
  }

  /** A key press: quit first, then help, then what the screen does with it. */
  function KeyStep(s: AppState, k: KeyEvent, fetched: Result<VideoMetadata, YtdlError>, fixed: Fixed): StepResult
    requires Ready(s)
  {
    if IsQuitKey(k) then StepResult(s, true, None)
    else if IsHelpKey(k) && !(s.Help? || s.Settings? || s.UrlInput?) then Stay(Help(s))
    else match s
      case Welcome =>
        if k.code == Enter then Stay(EMPTY_URL_INPUT)
        else if IsCharKey(k, 's', 'S') then Stay(Settings(NewSettings(SETTINGS_OUTPUT_DIR, SETTINGS_QUALITY, SETTINGS_CONCURRENT), s))
        else Stay(s)
      case UrlInput(_, _, _, _, _) => UrlInputKey(s, k, fetched, fixed)
      case FetchingInfo(_) => if IsBackKey(k) then Stay(EMPTY_URL_INPUT) else Stay(s)
      case FormatSelection(_, _, _, _) => FormatSelectionKey(s, k)
      case Downloading(_, _, _, _) =>
        if k == KeyEvent(Char('c'), {Control}) then Stay(EMPTY_URL_INPUT) else Stay(s)
      case Success(_) => if IsCharKey(k, 'n', 'N') then Stay(EMPTY_URL_INPUT) else Stay(s)
      case Error(_, _, _, _, _) =>
        if IsCharKey(k, 'n', 'N') || IsCharKey(k, 'r', 'R') then Stay(EMPTY_URL_INPUT) else Stay(s)
      case Help(_) => if IsBackKey(k) then Stay(BackFrom(s)) else Stay(s)
      case Settings(_, _) =>
        if k.code == Up then Stay(PreviousSetting(s))
        else if k.code == Down then Stay(NextSetting(s))
        else if k.code == Esc then Stay(BackFrom(s))
        else Stay(s)
  }

  /**
   * `handle_event` as a function of the screen: a paste edits the URL screen only; a resize
   * and a tick leave the screen alone (a tick advances the animations).
   */
  function Step(s: AppState, e: Event, fetched: Result<VideoMetadata, YtdlError>, fixed: Fixed): (r: StepResult)
    requires Ready(s)
    ensures Ready(r.state)
  {
    match e
    case Paste(text) =>
      if s.UrlInput? then Stay(WithInput(s, InsertAt(s.input, s.cursorPos, text), s.cursorPos + |text|)) else Stay(s)
    case Key(k) =>
      var r := KeyStep(s, k, fetched, fixed);
      KeyStepReady(s, k, fetched, fixed);
      r
    case Resize(_, _) => Stay(s)
    case Tick => Stay(s)
  }

  lemma {:induction false} KeyStepReady(s: AppState, k: KeyEvent, fetched: Result<VideoMetadata, YtdlError>, fixed: Fixed)
    requires Ready(s)
    ensures Ready(KeyStep(s, k, fetched, fixed).state)
  {
    if !IsQuitKey(k) && !(IsHelpKey(k) && !(s.Help? || s.Settings? || s.UrlInput?)) {
      match s
      case UrlInput(_, _, _, _, _) =>
        if k.code == Enter && MentionsYoutube(s.input) && fetched.Ok? {
          FetchedFormatsShape(fetched.value.formats, fixed);
        }
      case _ =>
    }
  }

  // ---------------------------------------------------------------- properties of dispatch

  /** The quit keys quit on every screen, before the screen sees them, and change nothing else. */
  lemma {:induction false} QuitOnEveryScreen(s: AppState, k: KeyEvent, fetched: Result<VideoMetadata, YtdlError>, fixed: Fixed)
    requires Ready(s) && IsQuitKey(k)
    ensures Step(s, Key(k), fetched, fixed) == StepResult(s, true, None)
  {
  }

  /** On the URL screen a plain `q` quits instead of being typed. */
  lemma {:induction false} TypingQQuits(s: AppState, fetched: Result<VideoMetadata, YtdlError>, fixed: Fixed)
    requires Ready(s) && s.UrlInput?
    ensures Step(s, Key(KeyEvent(Char('q'), {})), fetched, fixed) == StepResult(s, true, None)
  {
  }

  /** The download screen's Ctrl+C cancel can never run: Ctrl+C quits first. */
  lemma {:induction false} DownloadCancelUnreachable(s: AppState, fetched: Result<VideoMetadata, YtdlError>, fixed: Fixed)
    requires Ready(s) && s.Downloading?
    ensures Step(s, Key(KeyEvent(Char('c'), {Control})), fetched, fixed) == StepResult(s, true, None)
  {
  }

  /**
   * A help key opens help over exactly the screens other than help, settings and the URL
   * screen; on the URL screen it is typed.
   */
  lemma {:induction false} HelpKeyGating(s: AppState, k: KeyEvent, fetched: Result<VideoMetadata, YtdlError>, fixed: Fixed)
    requires Ready(s) && IsHelpKey(k)
    ensures (Step(s, Key(k), fetched, fixed).state == Help(s)) <==> !(s.Help? || s.Settings? || s.UrlInput?)
    ensures s.UrlInput? ==> (Step(s, Key(k), fetched, fixed).state.UrlInput?
              && Step(s, Key(k), fetched, fixed).state.input == InsertAt(s.input, s.cursorPos, [k.code.c]))
  {
    if s.Help? || s.Settings? || s.UrlInput? {
      HelpNotSelf(s);
      assert k.code.Char?;
      if s.Help? {
        assert !IsBackKey(k);
      }
    }
  }

  lemma {:induction false} HelpNotSelf(s: AppState)
    ensures Help(s) != s
  {
    assert s < Help(s);
  }

  /** Overlay discipline: help never covers an overlay, settings only cover the welcome screen. */
  predicate OverlaysFlat(s: AppState)
  {
    match s
    case Help(prev) => !prev.Help? && !prev.Settings?
    case Settings(_, prev) => prev == Welcome
    case _ => true
  }

  /**
   * Dispatch keeps overlays flat; settings open only from the welcome screen, and help only
   * over the screen shown, never over help or settings.
   */
  lemma {:induction false} OverlaysNeverNest(s: AppState, e: Event, fetched: Result<VideoMetadata, YtdlError>, fixed: Fixed)
    requires Ready(s) && OverlaysFlat(s)
    ensures OverlaysFlat(Step(s, e, fetched, fixed).state)
    ensures Step(s, e, fetched, fixed).state.Settings? && !s.Settings? ==> s == Welcome
    ensures Step(s, e, fetched, fixed).state.Help? && !s.Help? ==> Step(s, e, fetched, fixed).state == Help(s) && !s.Settings?
  {
  }

  /** Typing a plain character inserts it at the cursor and moves the cursor one place on. */
  lemma {:induction false} TypingInserts(s: AppState, c: char, fetched: Result<VideoMetadata, YtdlError>, fixed: Fixed)
    requires Ready(s) && s.UrlInput?
    requires !IsQuitKey(KeyEvent(Char(c), {}))
    ensures var r := Step(s, Key(KeyEvent(Char(c), {})), fetched, fixed).state;
            r.UrlInput? && r.input == InsertAt(s.input, s.cursorPos, [c]) && r.cursorPos == s.cursorPos + 1
            && r.isValid == InputVerdict(r.input)
  {
  }

  /** Backspace removes the character before the cursor and moves it back; at the start it does nothing. */
  lemma {:induction false} BackspaceRemoves(s: AppState, m: set<Modifier>, fetched: Result<VideoMetadata, YtdlError>, fixed: Fixed)
    requires Ready(s) && s.UrlInput?
    ensures var r := Step(s, Key(KeyEvent(Backspace, m)), fetched, fixed).state;
            (s.cursorPos > 0 ==> r.UrlInput? && r.input == RemoveAt(s.input, s.cursorPos - 1) && r.cursorPos == s.cursorPos - 1)
            && (s.cursorPos == 0 ==> r == s)
  {
  }

  /** Ctrl+U (with any further modifiers) empties the input. */
  lemma {:induction false} ControlUClears(s: AppState, m: set<Modifier>, fetched: Result<VideoMetadata, YtdlError>, fixed: Fixed)
    requires Ready(s) && s.UrlInput? && Control in m
    ensures var r := Step(s, Key(KeyEvent(Char('u'), m)), fetched, fixed).state;
            r.UrlInput? && r.input == "" && r.cursorPos == 0 && r.isValid.None?
  {
    assert m != {};
    assert !IsQuitKey(KeyEvent(Char('u'), m));
  }

  /** A paste inserts the text at the cursor and moves the cursor past it; elsewhere it is ignored. */
  lemma {:induction false} PasteInserts(s: AppState, text: string, fetched: Result<VideoMetadata, YtdlError>, fixed: Fixed)
    requires Ready(s)
    ensures var r := Step(s, Paste(text), fetched, fixed).state;
            (s.UrlInput? ==> r.UrlInput? && r.input == InsertAt(s.input, s.cursorPos, text) && r.cursorPos == s.cursorPos + |text|)
            && (!s.UrlInput? ==> r == s)
  {
  }

  /**
   * Enter on the URL screen leaves it exactly when the input mentions a YouTube host, for
   * the format list of the fetched video or the fetch error.
   */
  lemma {:induction false} EnterNeedsYoutube(s: AppState, m: set<Modifier>, fetched: Result<VideoMetadata, YtdlError>, fixed: Fixed)
    requires Ready(s) && s.UrlInput?
    ensures var r := Step(s, Key(KeyEvent(Enter, m)), fetched, fixed);
            (!MentionsYoutube(s.input) ==> r.state == s)
            && (MentionsYoutube(s.input) && fetched.Ok? ==>
                  r.state == FormatSelection(s.input, DisplayInfo(fetched.value), FetchedFormats(fetched.value.formats, fixed), 0))
            && (MentionsYoutube(s.input) && fetched.Err? ==> r.state.Error? && r.state.lastUrl == Some(s.input))
  {
  }

  /**
   * Enter downloads audio only exactly when the highlighted entry is the audio entry; `a`
   * always downloads audio, while the download screen records the highlighted entry.
   */
  lemma {:induction false} DownloadRequests(s: AppState, k: KeyEvent, fetched: Result<VideoMetadata, YtdlError>, fixed: Fixed)
    requires Ready(s) && s.FormatSelection? && !IsQuitKey(k) && !IsHelpKey(k)
    ensures var r := Step(s, Key(k), fetched, fixed);
            (k.code == Enter ==> r.spawn == Some(DownloadRequest(s.url, s.formats[s.selectedIndex].formatId == "audio")))
            && (IsCharKey(k, 'a', 'A') ==> (r.spawn == Some(DownloadRequest(s.url, true))
                  && r.state == Downloading(s.url, s.videoInfo, s.formats[s.selectedIndex], ZERO_PROGRESS)))
            && (r.spawn.Some? ==> k.code == Enter || IsCharKey(k, 'a', 'A'))
  {
  }

  /** Only a key on the format list starts a download. */
  lemma {:induction false} OnlyFormatListDownloads(s: AppState, e: Event, fetched: Result<VideoMetadata, YtdlError>, fixed: Fixed)
    requires Ready(s) && Step(s, e, fetched, fixed).spawn.Some?
    ensures s.FormatSelection? && e.Key? && Step(s, e, fetched, fixed).state.Downloading?
  {
  }

  // ---------------------------------------------------------------- the cursor as written

  /**
   * Typing on the URL screen as the source does it: the cursor moves one place per character
   * typed, but `String::insert` reads it as a byte offset and panics when it is not on a
   * character boundary. `None` is that panic.
   */
  function TypeCharAsWritten(input: string, cursorPos: nat, c: char): (r: Option<(string, nat)>)
    ensures r.Some? <==> CharIndexAt(input, cursorPos).Some?
    ensures r.Some? ==> r.value.1 == cursorPos + 1 && |r.value.0| == |input| + 1
  {
    match CharIndexAt(input, cursorPos)
    case None => None
    case Some(k) => Some((input[..k] + [c] + input[k..], cursorPos + 1))
  }

  /** Pasting as the source does it: inserted at a byte offset, the cursor moved by the byte length. */
  function PasteAsWritten(input: string, cursorPos: nat, text: string): (r: Option<(string, nat)>)
    ensures r.Some? <==> CharIndexAt(input, cursorPos).Some?
    ensures r.Some? ==> r.value.1 == cursorPos + ByteLen(text)
  {
    match CharIndexAt(input, cursorPos)
    case None => None
    case Some(k) => Some((input[..k] + text + input[k..], cursorPos + ByteLen(text)))
  }

  /** Typing a two-byte character and then another letter panics on the second key. */
  lemma TypingAfterAccentPanics()
    ensures TypeCharAsWritten("", 0, '\U{e9}') == Some(("\U{e9}", 1))
    ensures TypeCharAsWritten("\U{e9}", 1, 'a') == None
  {
    var e: string := "";
    assert CharIndexAt(e, 0) == Some(0);
    assert e[..0] + ['\U{e9}'] + e[0..] == "\U{e9}";
    assert Utf8Len('\U{e9}') == 2;
  }

  /** Pasting a two-byte character puts the cursor past the end of the input. */
  lemma PasteAccentOvershoots()
    ensures PasteAsWritten("", 0, "\U{e9}") == Some(("\U{e9}", 2))
  {
    var e: string := "";
    assert CharIndexAt(e, 0) == Some(0);
    assert e[..0] + "\U{e9}" + e[0..] == "\U{e9}";
    assert ByteLen("\U{e9}") == 2 by {
      assert "\U{e9}"[1..] == [];
    }
  }

  /** On ASCII input the source's byte cursor and the model's character cursor agree. */
  lemma {:induction false} AsWrittenAgreesOnAscii(input: string, cursorPos: nat, c: char, text: string)
    requires IsAscii(input) && IsAscii(text) && cursorPos <= |input|
    ensures TypeCharAsWritten(input, cursorPos, c) == Some((InsertAt(input, cursorPos, [c]), cursorPos + 1))
    ensures PasteAsWritten(input, cursorPos, text) == Some((InsertAt(input, cursorPos, text), cursorPos + |text|))
  {
    AsciiCharIndex(input, cursorPos);
    AsciiByteLen(text);
  }

  // ---------------------------------------------------------------- the application

  /**
   * `handle_event` on the application: the screen changes as `Step` says, a quit request
   * sets the flag, and a tick advances the animations.
   */
  method HandleEvent(app: App, e: Event, now: int, fetched: Result<VideoMetadata, YtdlError>, fixed: Fixed)
    returns (spawn: Option<DownloadRequest>)
    requires app.Valid() && CursorOk(app.state)
    modifies app, app.spinner, app.cursor, app.checkmark, app.colorCycle, app.pulsingSelection
    ensures app.Valid() && CursorOk(app.state)
    ensures app.state == Step(old(app.state), e, fetched, fixed).state
    ensures app.shouldQuit == (old(app.shouldQuit) || Step(old(app.state), e, fetched, fixed).quit)
    ensures spawn == Step(old(app.state), e, fetched, fixed).spawn
    ensures e.Tick? ==> app.AnimationsTicked(now)
    ensures !e.Tick? ==> unchanged(app.spinner, app.cursor, app.checkmark, app.colorCycle, app.pulsingSelection)
  {
    spawn := None;
    var s := app.state;
    match e {
      case Paste(text) =>
        if s.UrlInput? {
          app.UpdateInput(InsertAt(s.input, s.cursorPos, text), s.cursorPos + |text|);
        }
      case Resize(_, _) =>
      case Tick =>
        app.Tick(now);
      case Key(k) =>
        spawn := HandleKey(app, k, fetched, fixed);
    }
  }

  /**
   * A key press: quit and help first, then what the current screen does with the key. Only
   * the application's screen and quit flag change; the animations are left alone.
   */
  method HandleKey(app: App, k: KeyEvent, fetched: Result<VideoMetadata, YtdlError>, fixed: Fixed)
    returns (spawn: Option<DownloadRequest>)
    requires app.Valid() && CursorOk(app.state)
    modifies app
    ensures app.Valid() && CursorOk(app.state)
    ensures app.state == Step(old(app.state), Key(k), fetched, fixed).state
    ensures app.shouldQuit == (old(app.shouldQuit) || Step(old(app.state), Key(k), fetched, fixed).quit)
    ensures spawn == Step(old(app.state), Key(k), fetched, fixed).spawn
  {
    spawn := None;
    var s := app.state;
    KeyStepReady(s, k, fetched, fixed);
    if IsQuitKey(k) {
      app.Quit();
    } else if IsHelpKey(k) && !(s.Help? || s.Settings? || s.UrlInput?) {
      app.GoToHelp();
    } else {
      spawn := ScreenKey(app, k, fetched, fixed);
    }
  }

  /** The screen-specific part of a key press, once quit and help are ruled out. */
  method ScreenKey(app: App, k: KeyEvent, fetched: Result<VideoMetadata, YtdlError>, fixed: Fixed)
    returns (spawn: Option<DownloadRequest>)
    requires app.Valid() && CursorOk(app.state)
    requires !IsQuitKey(k) && !(IsHelpKey(k) && !(app.state.Help? || app.state.Settings? || app.state.UrlInput?))
    modifies app
    ensures app.state == KeyStep(old(app.state), k, fetched, fixed).state
    ensures app.shouldQuit == old(app.shouldQuit)
    ensures spawn == KeyStep(old(app.state), k, fetched, fixed).spawn
  {
    spawn := None;
    var s := app.state;
    match s {
      case Welcome =>
        if k.code == Enter {
          app.GoToUrlInput();
        } else if IsCharKey(k, 's', 'S') {
          app.GoToSettings(SETTINGS_OUTPUT_DIR, SETTINGS_QUALITY, SETTINGS_CONCURRENT);
        }
      case UrlInput(input, cursorPos, _, _, _) =>
        UrlInputKeyOn(app, k, fetched, fixed);
      case FetchingInfo(_) =>
        if IsBackKey(k) {
          app.GoToUrlInput();
        }
      case FormatSelection(url, _, _, _) =>
        if k.code == Up {
          app.SelectPreviousFormat();
        } else if k.code == Down {
          app.SelectNextFormat();
        } else if k.code == Enter {
          app.StartDownload();
          var selected := if app.state.Downloading? then app.state.format.formatId else "best";
          spawn := Some(DownloadRequest(url, selected == "audio"));
        } else if IsCharKey(k, 'a', 'A') {
          app.StartDownload();
          spawn := Some(DownloadRequest(url, true));
        } else if k.code == Esc {
          app.GoToUrlInput();
        }
      case Downloading(_, _, _, _) =>
        // Ctrl+C, the cancel key here, quits before the screen sees it (DownloadCancelUnreachable).
      case Success(_) =>
        if IsCharKey(k, 'n', 'N') {
          app.GoToUrlInput();
        }
      case Error(_, _, _, _, _) =>
        if IsCharKey(k, 'n', 'N') || IsCharKey(k, 'r', 'R') {
          app.GoToUrlInput();
        }
      case Help(_) =>
        if IsBackKey(k) {
          app.BackFromOverlay();
        }
      case Settings(_, _) =>
        if k.code == Up {
          app.SelectPreviousSetting();
        } else if k.code == Down {
          app.SelectNextSetting();
        } else if k.code == Esc {
          app.BackFromOverlay();
        }
    }
  }

  /** A key press on the URL screen, with the fetch Enter starts. */
  method UrlInputKeyOn(app: App, k: KeyEvent, fetched: Result<VideoMetadata, YtdlError>, fixed: Fixed)
    requires app.state.UrlInput? && app.state.cursorPos <= |app.state.input|
    modifies app
    ensures app.state == UrlInputKey(old(app.state), k, fetched, fixed).state
    ensures app.shouldQuit == old(app.shouldQuit)
  {
    var input, cursorPos := app.state.input, app.state.cursorPos;
    match k.code {
      case Char(c) =>
        if k.modifiers == {} {
          app.UpdateInput(InsertAt(input, cursorPos, [c]), cursorPos + 1);
        } else if c == 'u' && Control in k.modifiers {
          app.UpdateInput("", 0);
        }
      case Backspace =>
        if cursorPos > 0 {
          app.UpdateInput(RemoveAt(input, cursorPos - 1), cursorPos - 1);
        }
      case Enter =>
        if MentionsYoutube(input) {
          app.StartFetchingInfo(input);
          FetchVideoInfoOn(app, input, fetched, fixed);
        }
      case Esc =>
        app.GoToWelcome();
      case _ =>
    }
  }

  /** The runner's `fetch_video_info`: the format list is installed only if the screen still waits for it. */
  method FetchVideoInfoOn(app: App, url: string, fetched: Result<VideoMetadata, YtdlError>, fixed: Fixed)
    modifies app
    ensures app.state == ApplyFetch(old(app.state), url, fetched, fixed)
    ensures app.shouldQuit == old(app.shouldQuit)
  {
    match fetched {
      case Ok(meta) =>
        var info := DisplayInfo(meta);
        var formats := BuildFormatList(meta.formats, fixed);
        if app.state.FetchingInfo? {
          app.ShowFormatSelection(url, info, formats);
        }
      case Err(e) =>
        app.GoToError("Fetch Error", "Failed to fetch video information: " + Display(e), FETCH_SUGGESTIONS);
    }
  }

  // ---------------------------------------------------------------- a download's effect

  /** The progress record for a sample delivered `elapsed` seconds into the download. */
  function ProgressOf(p: ProgressInfo, elapsed: nat): (d: DownloadProgress)
    ensures d.percentage == p.percentage && d.downloadedBytes == p.downloadedBytes && d.totalBytes == p.totalBytes
    ensures d.speed == p.speed && d.eta == p.eta && d.elapsed == elapsed
  {
    DownloadProgress(p.percentage, p.downloadedBytes, p.totalBytes, p.speed, p.eta, elapsed)
  }

  /** The screen after the samples, `elapsedAt(k)` being the elapsed seconds at the k-th. */
  function Progressed(s: AppState, samples: seq<ProgressInfo>, elapsedAt: nat -> nat): AppState
  {
    if samples == [] then s
    else
      var n := |samples| - 1;
      WithProgress(Progressed(s, samples[..n], elapsedAt), ProgressOf(samples[n], elapsedAt(n)))
  }

  /**
   * Progress lands only on the download screen: any other screen is left as it is, and
   * the download screen shows the last sample, with everything else about it unchanged.
   */
  lemma {:induction false} ProgressedGuarded(s: AppState, samples: seq<ProgressInfo>, elapsedAt: nat -> nat)
    ensures !s.Downloading? ==> Progressed(s, samples, elapsedAt) == s
    ensures s.Downloading? && samples != [] ==>
              Progressed(s, samples, elapsedAt) == s.(progress := ProgressOf(samples[|samples| - 1], elapsedAt(|samples| - 1)))
    ensures s.Downloading? ==> Progressed(s, samples, elapsedAt).Downloading?
  {
    if samples != [] {
      ProgressedGuarded(s, samples[..|samples| - 1], elapsedAt);
    }
  }

  const GB_BYTES: nat := 1000000000
  const MB_BYTES: nat := 1000000
  const KB_BYTES: nat := 1000

  /** The unit of the size shown on success: GB, MB or KB above each decimal threshold, else bytes. */
  function SizeUnit(bytes: nat): (u: string)
    ensures u == "GB" <==> bytes > GB_BYTES
    ensures u == "MB" <==> MB_BYTES < bytes <= GB_BYTES
    ensures u == "KB" <==> KB_BYTES < bytes <= MB_BYTES
    ensures u == "bytes" <==> bytes <= KB_BYTES
  {
    if bytes > GB_BYTES then "GB" else if bytes > MB_BYTES then "MB" else if bytes > KB_BYTES then "KB" else "bytes"
  }

  /** The size text: two decimals for GB, one for MB and KB, the exact count for bytes. */
  function SizeText(bytes: nat, fixed: Fixed): (t: string)
    ensures SizeUnit(bytes) == "bytes" ==> t == NatToString(bytes) + " bytes"
    ensures EndsWith(t, " " + SizeUnit(bytes))
  {
    var u := SizeUnit(bytes);
    var number :=
      if u == "GB" then fixed(bytes as real / (GB_BYTES as real), 2)
      else if u == "MB" then fixed(bytes as real / (MB_BYTES as real), 1)
      else if u == "KB" then fixed(bytes as real / (KB_BYTES as real), 1)
      else NatToString(bytes);
    var t := number + " " + u;
    assert t[|t| - |" " + u|..] == " " + u;
    t
  }

  /** The duration text: minutes and seconds beyond one minute, else seconds. */
  function DurationText(secs: nat): string
  {
    if secs > 60 then NatToString(secs / 60) + " min " + NatToString(secs % 60) + " sec"
    else NatToString(secs) + " seconds"
  }

  lemma DurationTextExamples()
    ensures DurationText(61) == "1 min 1 sec"
    ensures DurationText(60) == "60 seconds"
    ensures DurationText(125) == "2 min 5 sec"
  {
    OverAMinute(61, "1", "1");
    OverAMinute(125, "2", "5");
    assert NatToString(6) == "6" && NatToString(60) == "60";
  }

  lemma OverAMinute(secs: nat, m: string, s: string)
    requires secs > 60 && NatToString(secs / 60) == m && NatToString(secs % 60) == s
    ensures DurationText(secs) == m + " min " + s + " sec"
  {
  }

  /** The last component of a path, unless it is empty or "..". */
  function FileName(path: string): (r: Option<string>)
    ensures r.Some? ==> '/' !in r.value && r.value != "" && EndsWith(path, r.value)
  {
    var i := LastIndexOf(path, '/');
    var name := if i.Some? then path[i.value + 1..] else path;
    assert '/' !in name;
    if name == "" || name == ".." then None else Some(name)
  }

  /** The path without its last component; a bare name's parent is the empty path. */
  function Parent(path: string): Option<string>
  {
    match LastIndexOf(path, '/')
    case None => if path == "" then None else Some("")
    case Some(i) => Some(if i == 0 then "/" else path[..i])
  }

  /** A plain entry name joined onto a directory is that path's file name, and the directory its parent. */
  lemma {:induction false} JoinedPathParts(dir: string, name: string)
    requires name != "" && name != ".." && '/' !in name && dir != [] && !EndsWith(dir, "/")
    ensures FileName(JoinPath(dir, name)) == Some(name)
    ensures Parent(JoinPath(dir, name)) == Some(dir)
  {
    var p := JoinPath(dir, name);
    assert p == dir + "/" + name;
    assert p[|dir|] == '/';
    assert forall k :: |dir| < k < |p| ==> p[k] == name[k - |dir| - 1];
    var i := LastIndexOf(p, '/');
    assert i == Some(|dir|);
    assert p[|dir| + 1..] == name;
    assert |dir| > 0 && p[..|dir|] == dir;
  }

  /** What the download screen becomes when the download ends: success or error, whatever is shown. */
  function Completed(s: AppState, r: Result<string, YtdlError>, fileSize: Option<nat>, totalSecs: nat, fixed: Fixed): (t: AppState)
    ensures r.Ok? ==> t.Success?
    ensures r.Err? ==> t.Error? && t.errorType == "Download Error" && t.lastUrl == LastUrl(s) && t.suggestions == DOWNLOAD_SUGGESTIONS
  {
    match r
    case Ok(path) =>
      Success(DownloadSuccess(
        FileName(path).GetOr("Unknown"),
        if fileSize.Some? then SizeText(fileSize.value, fixed) else "Unknown",
        DurationText(totalSecs),
        Parent(path).GetOr("./downloads")))
    case Err(e) => ErrorFrom(s, "Download Error", "Failed to download video: " + Display(e), DOWNLOAD_SUGGESTIONS)
  }

  /**
   * `perform_download`: runs the progress download, applies each sample to the screen only
   * while it is the download screen, then overwrites the screen with the outcome.
   * `fileSize` is the size the finished file's metadata reports, `totalSecs` the elapsed time.
   */
  method PerformDownload(app: App, d: DL.Downloader, url: string, audioOnly: bool, run: ToolRun,
                         elapsedAt: nat -> nat, fileSize: Option<nat>, totalSecs: nat, fixed: Fixed)
    returns (samples: seq<ProgressInfo>, r: Result<string, YtdlError>)
    modifies app
    ensures run.createDir.None? && run.spawn.None? ==> samples == Samples(run.stdout)
    ensures r.Ok? <==> Finished(run) && Succeeded(run.wait.value) && run.listing.Ok? && Newest(run.listing.value).Some?
    ensures app.state == Completed(Progressed(old(app.state), samples, elapsedAt), r, fileSize, totalSecs, fixed)
    ensures app.shouldQuit == old(app.shouldQuit)
  {
    var invoked;
    invoked, samples, r := DownloadWithProgress(d, url, audioOnly, run);
    ShowProgress(app, samples, elapsedAt);
    ShowOutcome(app, r, fileSize, totalSecs, fixed);
  }

  /** Each sample in turn becomes the progress shown. */
  method ShowProgress(app: App, samples: seq<ProgressInfo>, elapsedAt: nat -> nat)
    modifies app
    ensures app.state == Progressed(old(app.state), samples, elapsedAt)
    ensures app.shouldQuit == old(app.shouldQuit)
  {
    var i := 0;
    while i < |samples|
      invariant 0 <= i <= |samples|
      invariant app.state == Progressed(old(app.state), samples[..i], elapsedAt)
      invariant app.shouldQuit == old(app.shouldQuit)
    {
      assert samples[..i + 1][..i] == samples[..i];
      app.UpdateProgress(ProgressOf(samples[i], elapsedAt(i)));
      i := i + 1;
    }
    assert samples[..i] == samples;
  }

  /** The success screen for a downloaded file, the error screen otherwise. */
  method ShowOutcome(app: App, r: Result<string, YtdlError>, fileSize: Option<nat>, totalSecs: nat, fixed: Fixed)
    modifies app
    ensures app.state == Completed(old(app.state), r, fileSize, totalSecs, fixed)
    ensures app.shouldQuit == old(app.shouldQuit)
  {
    match r {
      case Ok(path) =>
        var size := if fileSize.Some? then SizeText(fileSize.value, fixed) else "Unknown";
        app.DownloadComplete(DownloadSuccess(FileName(path).GetOr("Unknown"), size, DurationText(totalSecs), Parent(path).GetOr("./downloads")));
      case Err(e) =>
        app.GoToError("Download Error", "Failed to download video: " + Display(e), DOWNLOAD_SUGGESTIONS);
    }
  }

  /** An ending download replaces whatever screen is shown, not only the download screen. */
  lemma {:induction false} CompletionOverwrites(s: AppState, r: Result<string, YtdlError>, fileSize: Option<nat>, totalSecs: nat, fixed: Fixed)
    ensures r.Ok? ==> Completed(s, r, fileSize, totalSecs, fixed).Success?
    ensures r.Err? && s.UrlInput? ==> Completed(s, r, fileSize, totalSecs, fixed).lastUrl == Some(s.input)
  {
  }
}
