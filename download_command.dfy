/**
 * The single-URL download command: a URL the history already holds is downloaded again
 * only on request (resume), and a finished download is recorded in the history, which is
 * then saved. The messages printed along the way are left out; the save's outcome is a
 * parameter.
 */
module DownloadCommand {
  import opened Wrappers
  import opened Shared
  import opened AppConfig
  import opened HistoryStore
  import opened DL = Downloader
  import opened Batch

  /**
   * What the command does with a URL: nothing (`None`) when it was downloaded before and
   * no resume was asked for; otherwise a download, continuing partial files iff resuming.
   */
  function Plan(alreadyDownloaded: bool, resume: bool): (p: Option<bool>)
    ensures p.None? <==> alreadyDownloaded && !resume
    ensures p.Some? ==> p.value == resume
  {
    if alreadyDownloaded && !resume then None else Some(resume)
  }

  /**
   * `download_single_url`. A known URL without resume returns at once, downloading and
   * recording nothing. Otherwise the downloader runs (`resume_download` when resuming, so
   * with "--continue", `download` otherwise); on failure its error is returned and nothing
   * is recorded; on success exactly one entry is appended and the save's outcome returned.
   */
  method DownloadSingleUrl(url: string, config: ConfigValue, history: History, resume: bool, run: ItemRun, now: int, saved: Result<(), YtdlError>)
    returns (invoked: Option<seq<string>>, r: Result<(), YtdlError>)
    modifies history
    ensures Plan(Known(old(history.entries), url), resume).None? ==>
              invoked.None? && r == Ok(()) && history.entries == old(history.entries)
    ensures Plan(Known(old(history.entries), url), resume).Some? && run.tool.createDir.None? ==>
              invoked == Some(ToolArgs(config.outputDir, config.quality, url, config.audioOnly, resume))
    ensures Plan(Known(old(history.entries), url), resume).Some? && Outcome(config.outputDir, run.tool).Err? ==>
              r == Err(Outcome(config.outputDir, run.tool).error) && history.entries == old(history.entries)
    ensures Plan(Known(old(history.entries), url), resume).Some? && Outcome(config.outputDir, run.tool).Ok? ==>
              r == saved
              && history.entries == old(history.entries) + [RecordFor(url, Outcome(config.outputDir, run.tool).value, run, config, now)]
  {
    if history.ContainsUrl(url) && !resume {
      return None, Ok(());
    }
    var d := DL.Downloader(config.outputDir, config.quality);
    var result;
    invoked, result := DownloadWithResume(d, url, config.audioOnly, resume, run.tool);
    if result.Err? {
      return invoked, Err(result.error);
    }
    var outputPath := result.value;
    var title := run.fetchedTitle.GetOr(url);
    var fileSize := run.fileSize.GetOr(0);
    history.AddEntry(NewEntry(url, title, outputPath, fileSize, config.quality, if config.audioOnly then "mp3" else "mp4", now));
    r := saved;
  }
}
