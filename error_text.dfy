/**
 * The `Display` text of the application error: a fixed prefix per kind, followed by the
 * message the error carries (or, for the disk-space error, its two figures).
 */
module ErrorText {
  import opened Shared
  import opened Text

  const YTDLP_NOT_FOUND_TEXT: string :=
    "yt-dlp not found in PATH. Please install yt-dlp:\n  macOS: brew install yt-dlp\n  Linux: pip install yt-dlp\n  Windows: winget install yt-dlp"
  const FFMPEG_NOT_FOUND_TEXT: string :=
    "FFmpeg not found in PATH. Please install FFmpeg:\n  macOS: brew install ffmpeg\n  Linux: apt install ffmpeg\n  Windows: winget install ffmpeg"

  /** The prefix `Display` puts before the message of a kind that carries one. */
  function MessagePrefix(e: YtdlError): string
  {
    match e
    case InvalidUrl(_) => "Invalid YouTube URL: "
    case YtdlpFailed(_) => "yt-dlp execution failed: "
    case Network(_) => "Network error: "
    case JsonParse(_) => "Failed to parse JSON from yt-dlp: "
    case ProgressParse(_) => "Failed to parse progress output: "
    case Io(_) => "IO error: "
    case Config(_) => "Configuration error: "
    case FormatNotAvailable(_) => "Video format not available: "
    case _ => ""
  }

  predicate CarriesMessage(e: YtdlError)
  {
    e.InvalidUrl? || e.YtdlpFailed? || e.Network? || e.JsonParse? || e.ProgressParse?
    || e.Io? || e.Config? || e.FormatNotAvailable? || e.Other?
  }

  function Display(e: YtdlError): string
  {
    match e
    case YtdlpNotFound => YTDLP_NOT_FOUND_TEXT
    case FfmpegNotFound => FFMPEG_NOT_FOUND_TEXT
    case InsufficientDiskSpace(required, available) =>
      "Insufficient disk space. Required: " + NatToString(required) + " GB, Available: " + NatToString(available) + " GB"
    case Interrupted => "Download interrupted by user"
    case _ => MessagePrefix(e) + e.msg
  }

  /** Every kind that carries a message shows it in full after its prefix; `Other` shows it bare. */
  lemma {:induction false} DisplayShowsMessage(e: YtdlError)
    requires CarriesMessage(e)
    ensures Display(e) == MessagePrefix(e) + e.msg
    ensures EndsWith(Display(e), e.msg)
    ensures e.Other? ==> Display(e) == e.msg
  {
    var t := Display(e);
    assert t[|t| - |e.msg|..] == e.msg;
  }

  /** Two errors of the same kind with the same text carry the same message. */
  lemma {:induction false} DisplayDistinguishesMessages(e: YtdlError, f: YtdlError)
    requires CarriesMessage(e) && MessagePrefix(e) == MessagePrefix(f) && CarriesMessage(f)
    requires Display(e) == Display(f)
    ensures e.msg == f.msg
  {
    DisplayShowsMessage(e);
    DisplayShowsMessage(f);
    var p := MessagePrefix(e);
    assert Display(e)[|p|..] == e.msg;
    assert Display(f)[|p|..] == f.msg;
  }
}
