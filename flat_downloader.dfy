/**
 * The flat tree's downloader. Its argument vector, its progress handling, its exit-status
 * check, its partial-download search and its metadata fetch are those of the layered
 * downloader (`Downloader`), which this module reuses; it differs only in what a
 * successful download returns: the output directory itself, not the file written there.
 */
module FlatDownloader {
  import opened Wrappers
  import opened Shared
  import opened DL = Downloader

  /** What a flat download returns, as a function of the run. */
  function FlatOutcome(d: DL.Downloader, run: ToolRun): (r: Result<string, YtdlError>)
    ensures r.Ok? <==> Finished(run) && Succeeded(run.wait.value)
    ensures r.Ok? ==> r.value == d.outputDir
  {
    if run.createDir.Some? then Err(Io(run.createDir.value))
    else if run.spawn.Some? then Err(YtdlpFailed("Failed to spawn yt-dlp: " + run.spawn.value))
    else if run.wait.Err? then Err(YtdlpFailed("Failed to wait for yt-dlp: " + run.wait.error))
    else if ExitError(run.wait.value).Some? then Err(ExitError(run.wait.value).value)
    else Ok(d.outputDir)
  }

  /**
   * The flat `download_with_resume` (and `download`, `resume_download`): creates the output
   * directory, runs the tool with the same vector as the layered downloader, and on success
   * returns the output directory. The tool's progress lines only drive a terminal bar, and
   * the directory is never listed.
   */
  method DownloadWithResume(d: DL.Downloader, url: string, audioOnly: bool, continueDownload: bool, run: ToolRun)
    returns (invoked: Option<seq<string>>, r: Result<string, YtdlError>)
    ensures run.createDir.Some? ==> invoked.None? && r == Err(Io(run.createDir.value))
    ensures run.createDir.None? ==> invoked == Some(ToolArgs(d.outputDir, d.quality, url, audioOnly, continueDownload))
    ensures run.createDir.None? && run.spawn.Some? ==> r == Err(YtdlpFailed("Failed to spawn yt-dlp: " + run.spawn.value))
    ensures run.createDir.None? && run.spawn.None? && run.wait.Err? ==> r == Err(YtdlpFailed("Failed to wait for yt-dlp: " + run.wait.error))
    ensures Finished(run) && !Succeeded(run.wait.value) ==> r == Err(ExitError(run.wait.value).value)
    ensures r.Ok? <==> Finished(run) && Succeeded(run.wait.value)
    ensures r.Ok? ==> r.value == d.outputDir
    ensures r == FlatOutcome(d, run)
  {
    if run.createDir.Some? {
      return None, Err(Io(run.createDir.value));
    }
    var args := BuildArgs(d, url, audioOnly, continueDownload);
    invoked := Some(args);
    if run.spawn.Some? {
      return invoked, Err(YtdlpFailed("Failed to spawn yt-dlp: " + run.spawn.value));
    }
    if run.wait.Err? {
      return invoked, Err(YtdlpFailed("Failed to wait for yt-dlp: " + run.wait.error));
    }
    var failure := ExitError(run.wait.value);
    if failure.Some? {
      return invoked, Err(failure.value);
    }
    return invoked, Ok(d.outputDir);
  }
}
