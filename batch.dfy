/**
 * The batch downloader: a table of items, one per URL, filled from a file or a list,
 * marked against the history, and run one item at a time, each download's outcome
 * recorded on its item and in the history.
 *
 * The source runs the items concurrently, up to a limit; here they run in index order,
 * and each item's tool run, file size and fetched title are inputs. The file read and
 * the history save are outcomes passed in.
 */
module Batch {
  import opened Wrappers
  import opened Text
  import opened Shared
  import opened Utils
  import opened ErrorText
  import opened AppConfig
  import opened HistoryStore
  import opened DL = Downloader

  datatype DownloadStatus = Pending | Downloading | Complete | Failed(msg: string) | Skipped

  /** `progress` is a percentage; `fileSize` is in bytes. */
  datatype BatchDownloadItem = BatchDownloadItem(
    url: string,
    status: DownloadStatus,
    title: Option<string>,
    outputPath: Option<string>,
    progress: real,
    fileSize: nat)

  /** A fresh item: pending, nothing known about it yet. */
  function NewItem(url: string): (item: BatchDownloadItem)
    ensures item.url == url && item.status == Pending && item.title.None? && item.outputPath.None?
    ensures item.progress == 0.0 && item.fileSize == 0
  {
    BatchDownloadItem(url, Pending, None, None, 0.0, 0)
  }

  function NewItems(urls: seq<string>): (r: seq<BatchDownloadItem>)
    ensures |r| == |urls| && forall i :: 0 <= i < |urls| ==> r[i] == NewItem(urls[i])
  {
    if urls == [] then [] else NewItems(urls[..|urls| - 1]) + [NewItem(urls[|urls| - 1])]
  }

  lemma {:induction false} NewItemsSnoc(urls: seq<string>, j: nat)
    requires j < |urls|
    ensures NewItems(urls[..j + 1]) == NewItems(urls[..j]) + [NewItem(urls[j])]
  {
    assert urls[..j + 1][..j] == urls[..j];
  }

  /** The configured number of parallel downloads, 3 when unset, clamped into [1, 10]. */
  function ConcurrentLimit(configured: Option<nat>): (n: nat)
    ensures MIN_CONCURRENT_DOWNLOADS <= n <= MAX_CONCURRENT_DOWNLOADS
    ensures configured.None? ==> n == DEFAULT_CONCURRENT_DOWNLOADS
    ensures configured.Some? && MIN_CONCURRENT_DOWNLOADS <= configured.value <= MAX_CONCURRENT_DOWNLOADS ==> n == configured.value
    ensures configured.Some? && configured.value < MIN_CONCURRENT_DOWNLOADS ==> n == MIN_CONCURRENT_DOWNLOADS
    ensures configured.Some? && configured.value > MAX_CONCURRENT_DOWNLOADS ==> n == MAX_CONCURRENT_DOWNLOADS
  {
    var v := configured.GetOr(DEFAULT_CONCURRENT_DOWNLOADS);
    var atLeast := if v < MIN_CONCURRENT_DOWNLOADS then MIN_CONCURRENT_DOWNLOADS else v;
    if atLeast > MAX_CONCURRENT_DOWNLOADS then MAX_CONCURRENT_DOWNLOADS else atLeast
  }

  // ---------------------------------------------------------------- loading

  /**
   * A line of a batch file is kept when, trimmed, it is not empty, is not a comment and is
   * a valid URL. Trimming removes a carriage return before the newline, and an empty last
   * piece is dropped as empty, so splitting on '\n' yields the lines Rust's `str::lines` would.
   */
  predicate Kept(line: string)
  {
    var t := Trim(line);
    t != [] && t[0] != '#' && ValidateYoutubeUrl(t).Ok?
  }

  /** The URLs a batch file's lines contribute, in file order. */
  function BatchUrls(lines: seq<string>): seq<string>
  {
    if lines == [] then []
    else
      var n := |lines| - 1;
      BatchUrls(lines[..n]) + Contribution(lines[n])
  }

  /** What one line contributes: its trimmed text when it is kept, nothing otherwise. */
  function Contribution(line: string): (r: seq<string>)
    ensures Kept(line) ==> r == [Trim(line)]
    ensures !Kept(line) ==> r == []
  {
    if Kept(line) then [Trim(line)] else []
  }

  lemma {:induction false} BatchUrlsSnoc(lines: seq<string>, i: nat)
    requires i < |lines|
    ensures BatchUrls(lines[..i + 1]) == BatchUrls(lines[..i]) + Contribution(lines[i])
  {
    assert lines[..i + 1][..i] == lines[..i];
  }

  /** The loop of `load_from_file`: the trimmed lines that are neither empty, comments nor invalid URLs, in order. */
  method ReadUrls(lines: seq<string>) returns (urls: seq<string>)
    ensures urls == BatchUrls(lines)
  {
    urls := [];
    var i := 0;
    while i < |lines|
      invariant 0 <= i <= |lines|
      invariant urls == BatchUrls(lines[..i])
    {
      var line := Trim(lines[i]);
      ReadLineStep(lines, i, urls, line);
      if line != [] && line[0] != '#' {
        match ValidateYoutubeUrl(line) {
          case Ok(_) => urls := urls + [line];
          case Err(_) =>
        }
      }
      i := i + 1;
    }
    assert lines[..i] == lines;
  }

  /** Reading one more line of a batch file: a kept line adds its trimmed text, any other adds nothing. */
  lemma {:induction false} ReadLineStep(lines: seq<string>, i: nat, urls: seq<string>, line: string)
    requires i < |lines| && urls == BatchUrls(lines[..i]) && line == Trim(lines[i])
    ensures line != [] && line[0] != '#' && ValidateYoutubeUrl(line).Ok? ==> urls + [line] == BatchUrls(lines[..i + 1])
    ensures !(line != [] && line[0] != '#' && ValidateYoutubeUrl(line).Ok?) ==> urls == BatchUrls(lines[..i + 1])
  {
    BatchUrlsSnoc(lines, i);
  }

  /** Every URL taken from a batch file is a kept line, trimmed. */
  lemma {:induction false} BatchUrlsFromKeptLines(lines: seq<string>)
    ensures forall u :: u in BatchUrls(lines) ==> exists i :: 0 <= i < |lines| && Kept(lines[i]) && u == Trim(lines[i])
    ensures |BatchUrls(lines)| <= |lines|
  {
    if lines != [] {
      var n := |lines| - 1;
      BatchUrlsFromKeptLines(lines[..n]);
      forall u | u in BatchUrls(lines)
        ensures exists i :: 0 <= i < |lines| && Kept(lines[i]) && u == Trim(lines[i])
      {
        if u in BatchUrls(lines[..n]) {
          var i :| 0 <= i < n && Kept(lines[..n][i]) && u == Trim(lines[..n][i]);
          assert lines[..n][i] == lines[i];
        } else {
          assert Kept(lines[n]) && u == Trim(lines[n]);
        }
      }
    }
  }

  /** Every kept line of a batch file contributes its trimmed text. */
  lemma {:induction false} KeptLinesInBatchUrls(lines: seq<string>, i: nat)
    requires i < |lines| && Kept(lines[i])
    ensures Trim(lines[i]) in BatchUrls(lines)
  {
    var n := |lines| - 1;
    var u := Trim(lines[i]);
    if i < n {
      assert lines[..n][i] == lines[i];
      KeptLinesInBatchUrls(lines[..n], i);
      assert u in BatchUrls(lines[..n]);
    } else {
      assert i == n;
      var front := BatchUrls(lines[..n]);
      assert BatchUrls(lines) == front + [u];
      assert (front + [u])[|front|] == u;
    }
  }

  /** So each URL of a batch file is a valid URL, not empty and not a comment. */
  lemma {:induction false} BatchUrlsValid(lines: seq<string>)
    ensures forall u :: u in BatchUrls(lines) ==> IsYoutubeUrl(u) && u != [] && u[0] != '#'
  {
    BatchUrlsFromKeptLines(lines);
  }

  /** The URLs keep their file order: the lines of two pieces of a file contribute in sequence. */
  lemma {:induction false} BatchUrlsAppend(a: seq<string>, b: seq<string>)
    ensures BatchUrls(a + b) == BatchUrls(a) + BatchUrls(b)
    decreases |b|
  {
    if b == [] {
      assert a + b == a;
    } else {
      var n := |b| - 1;
      assert (a + b)[..|a + b| - 1] == a + b[..n];
      BatchUrlsAppend(a, b[..n]);
    }
  }

  /** The first URL that fails validation after a run of valid ones is the first invalid one. */
  lemma {:induction false} FirstInvalidAt(urls: seq<string>, j: nat)
    requires j < |urls| && !IsYoutubeUrl(urls[j])
    requires forall k :: 0 <= k < j ==> IsYoutubeUrl(urls[k])
    ensures FirstInvalid(urls) == Some(j)
  {
    var r := FirstInvalid(urls);
    assert r.Some? by {
      assert !IsYoutubeUrl(urls[j]);
    }
    assert r.value >= j;
  }

  const NO_VALID_URLS: string := "No valid URLs found in batch file"

  /** The index of the first URL that fails validation, if any. */
  function FirstInvalid(urls: seq<string>): (r: Option<nat>)
    ensures r.Some? ==> r.value < |urls| && !IsYoutubeUrl(urls[r.value])
                        && forall j :: 0 <= j < r.value ==> IsYoutubeUrl(urls[j])
    ensures r.None? ==> forall j :: 0 <= j < |urls| ==> IsYoutubeUrl(urls[j])
  {
    if urls == [] then None
    else if !IsYoutubeUrl(urls[0]) then Some(0)
    else match FirstInvalid(urls[1..])
      case None => None
      case Some(k) => Some(k + 1)
  }

  // ---------------------------------------------------------------- duplicates

  predicate Known(entries: seq<HistoryEntry>, url: string)
  {
    exists i :: 0 <= i < |entries| && entries[i].url == url
  }

  /** The URLs of the items the history already holds, in item order. */
  function DuplicateUrls(items: seq<BatchDownloadItem>, entries: seq<HistoryEntry>): seq<string>
  {
    if items == [] then []
    else
      var n := |items| - 1;
      DuplicateUrls(items[..n], entries) + (if Known(entries, items[n].url) then [items[n].url] else [])
  }

  lemma {:induction false} DuplicateUrlsExactly(items: seq<BatchDownloadItem>, entries: seq<HistoryEntry>)
    ensures forall u :: u in DuplicateUrls(items, entries) <==> Known(entries, u) && exists i :: 0 <= i < |items| && items[i].url == u
    ensures |DuplicateUrls(items, entries)| <= |items|
  {
    if items != [] {
      var n := |items| - 1;
      DuplicateUrlsExactly(items[..n], entries);
      forall u | Known(entries, u) && exists i :: 0 <= i < |items| && items[i].url == u
        ensures u in DuplicateUrls(items, entries)
      {
        var i :| 0 <= i < |items| && items[i].url == u;
        if i < n {
          assert items[..n][i] == items[i];
        }
      }
      forall u | u in DuplicateUrls(items, entries)
        ensures exists i :: 0 <= i < |items| && items[i].url == u
      {
        if u in DuplicateUrls(items[..n], entries) {
          var i :| 0 <= i < n && items[..n][i].url == u;
          assert items[i] == items[..n][i];
        } else {
          assert items[n].url == u;
        }
      }
    }
  }

  /** An item the history holds becomes Skipped; every other item is left as it was. */
  function MarkSkipped(item: BatchDownloadItem, entries: seq<HistoryEntry>): BatchDownloadItem
  {
    if Known(entries, item.url) then item.(status := Skipped) else item
  }

  function SkippedDuplicates(items: seq<BatchDownloadItem>, entries: seq<HistoryEntry>): (r: seq<BatchDownloadItem>)
    ensures |r| == |items| && forall i :: 0 <= i < |items| ==> r[i] == MarkSkipped(items[i], entries)
  {
    seq(|items|, i requires 0 <= i < |items| => MarkSkipped(items[i], entries))
  }

  /**
   * Marking touches statuses only: an item ends Skipped exactly when the history holds its
   * URL or it was Skipped already, and marking twice is marking once.
   */
  lemma {:induction false} SkippedDuplicatesExactly(items: seq<BatchDownloadItem>, entries: seq<HistoryEntry>)
    ensures var r := SkippedDuplicates(items, entries);
            forall i :: 0 <= i < |items| ==>
              r[i].url == items[i].url && r[i] == items[i].(status := r[i].status)
              && (r[i].status == Skipped <==> Known(entries, items[i].url) || items[i].status == Skipped)
              && (!Known(entries, items[i].url) ==> r[i] == items[i])
    ensures SkippedDuplicates(SkippedDuplicates(items, entries), entries) == SkippedDuplicates(items, entries)
  {
  }

  // ---------------------------------------------------------------- downloading

  /** What one item's download delivered: the tool run, the finished file's size and the fetched title, if any. */
  datatype ItemRun = ItemRun(tool: ToolRun, fileSize: Option<nat>, fetchedTitle: Option<string>)

  /** The item after its download: complete with the file's details, or failed with the error's text. */
  function AfterDownload(item: BatchDownloadItem, outcome: Result<string, YtdlError>, run: ItemRun): (r: BatchDownloadItem)
    ensures r.url == item.url
    ensures outcome.Ok? ==> r.status == Complete && r.outputPath == Some(outcome.value) && r.progress == 100.0
                            && r.fileSize == run.fileSize.GetOr(0) && r.title == Some(run.fetchedTitle.GetOr(item.url))
    ensures outcome.Err? ==> r == item.(status := Failed(Display(outcome.error)))
  {
    match outcome
    case Ok(path) =>
      item.(status := Complete, outputPath := Some(path), progress := 100.0,
            fileSize := run.fileSize.GetOr(0), title := Some(run.fetchedTitle.GetOr(item.url)))
    case Err(e) => item.(status := Failed(Display(e)))
  }

  /** The history entry a completed download adds; audio-only downloads are "mp3", the rest "mp4". */
  function RecordFor(url: string, path: string, run: ItemRun, config: ConfigValue, now: int): (e: HistoryEntry)
    ensures e.url == url && e.filePath == path && e.title == run.fetchedTitle.GetOr(url)
    ensures e.fileSize == run.fileSize.GetOr(0) && e.quality == config.quality && e.timestamp == now
    ensures e.format == (if config.audioOnly then "mp3" else "mp4")
  {
    NewEntry(url, run.fetchedTitle.GetOr(url), path, run.fileSize.GetOr(0), config.quality,
             if config.audioOnly then "mp3" else "mp4", now)
  }

  /** `outs` holds each item's outcome; the relation is only unfolded where an outcome is named. */
  predicate OutcomesOf(dir: string, runs: seq<ItemRun>, outs: seq<Result<string, YtdlError>>)
  {
    |outs| == |runs| && forall k {:trigger Outcome(dir, runs[k].tool)} :: 0 <= k < |runs| ==> outs[k] == Outcome(dir, runs[k].tool)
  }

  /** The outcome the download of each item reports, in index order. */
  ghost function Outcomes(dir: string, runs: seq<ItemRun>): (r: seq<Result<string, YtdlError>>)
    ensures OutcomesOf(dir, runs, r)
  {
    var outs := seq(|runs|, k requires 0 <= k < |runs| => Outcome(dir, runs[k].tool));
    assert OutcomesOf(dir, runs, outs);
    var r :| OutcomesOf(dir, runs, r);
    r
  }

  /** Item `k`'s entry in `Outcomes` is the outcome its download reports. */
  lemma {:induction false} OutcomesAt(dir: string, runs: seq<ItemRun>, k: nat)
    requires k < |runs|
    ensures Outcomes(dir, runs)[k] == Outcome(dir, runs[k].tool)
  {
    assert OutcomesOf(dir, runs, Outcomes(dir, runs));
  }

  /** What one `download_item` call leaves of an item: Skipped items untouched, the rest downloaded. */
  function Settle(item: BatchDownloadItem, outcome: Result<string, YtdlError>, run: ItemRun): (r: BatchDownloadItem)
    ensures r.url == item.url
    ensures item.status == Skipped ==> r == item
    ensures Settled(r.status) && (r.status == Skipped <==> item.status == Skipped)
    ensures item.status != Skipped ==> (r.status == Complete <==> outcome.Ok?) && (r.status.Failed? <==> outcome.Err?)
  {
    if item.status == Skipped then item else AfterDownload(item, outcome, run)
  }

  /** The table after the first `n` items were settled, the rest as they were. */
  function SettledUpTo(start: seq<BatchDownloadItem>, outs: seq<Result<string, YtdlError>>, runs: seq<ItemRun>, n: nat): (r: seq<BatchDownloadItem>)
    requires n <= |start| == |outs| == |runs|
    ensures |r| == |start|
  {
    if n == 0 then start else SettledUpTo(start, outs, runs, n - 1)[n - 1 := Settle(start[n - 1], outs[n - 1], runs[n - 1])]
  }

  /** The items from `n` on are still as they were. */
  lemma {:induction false} SettledUpToRest(start: seq<BatchDownloadItem>, outs: seq<Result<string, YtdlError>>, runs: seq<ItemRun>, n: nat)
    requires n <= |start| == |outs| == |runs|
    ensures forall k :: n <= k < |start| ==> SettledUpTo(start, outs, runs, n)[k] == start[k]
  {
    if n > 0 {
      SettledUpToRest(start, outs, runs, n - 1);
    }
  }

  /** The items before `n` are settled. */
  lemma {:induction false} SettledUpToAll(start: seq<BatchDownloadItem>, outs: seq<Result<string, YtdlError>>, runs: seq<ItemRun>, n: nat)
    requires n <= |start| == |outs| == |runs|
    ensures forall k :: 0 <= k < n ==> SettledUpTo(start, outs, runs, n)[k] == Settle(start[k], outs[k], runs[k])
  {
    if n > 0 {
      SettledUpToAll(start, outs, runs, n - 1);
    }
  }

  /** What `download_item` returns for the item: the download's error under stop-on-error, otherwise success. */
  function ItemResult(item: BatchDownloadItem, outcome: Result<string, YtdlError>, stopOnError: bool): (r: Result<(), YtdlError>)
    ensures r.Err? ==> outcome.Err? && r.error == outcome.error
  {
    if item.status != Skipped && stopOnError && outcome.Err? then Err(outcome.error) else Ok(())
  }

  /** The results of the first `n` items, in index order. */
  function ItemResults(items: seq<BatchDownloadItem>, outs: seq<Result<string, YtdlError>>, n: nat, stopOnError: bool): (r: seq<Result<(), YtdlError>>)
    requires n <= |items| == |outs|
    ensures |r| == n
  {
    if n == 0 then [] else ItemResults(items, outs, n - 1, stopOnError) + [ItemResult(items[n - 1], outs[n - 1], stopOnError)]
  }

  lemma {:induction false} ItemResultsAll(items: seq<BatchDownloadItem>, outs: seq<Result<string, YtdlError>>, n: nat, stopOnError: bool)
    requires n <= |items| == |outs|
    ensures forall k :: 0 <= k < n ==> ItemResults(items, outs, n, stopOnError)[k] == ItemResult(items[k], outs[k], stopOnError)
  {
    if n > 0 {
      ItemResultsAll(items, outs, n - 1, stopOnError);
    }
  }

  /** Settling item `i` and recording its result extends both by one item. */
  lemma {:induction false} EachStep(start: seq<BatchDownloadItem>, outs: seq<Result<string, YtdlError>>, runs: seq<ItemRun>, i: nat,
                                    stopOnError: bool, before: seq<BatchDownloadItem>, after: seq<BatchDownloadItem>,
                                    results: seq<Result<(), YtdlError>>, result: Result<(), YtdlError>)
    requires i < |start| == |outs| == |runs|
    requires before == SettledUpTo(start, outs, runs, i)
    requires after == before[i := Settle(before[i], outs[i], runs[i])]
    requires results == ItemResults(start, outs, i, stopOnError)
    requires result == ItemResult(before[i], outs[i], stopOnError)
    ensures before[i] == start[i]
    ensures after == SettledUpTo(start, outs, runs, i + 1)
    ensures results + [result] == ItemResults(start, outs, i + 1, stopOnError)
  {
    SettledUpToRest(start, outs, runs, i);
  }

  /** The history entry one `download_item` call adds, if any: only a download that finished with a file adds one. */
  function RecordOf(item: BatchDownloadItem, outcome: Result<string, YtdlError>, run: ItemRun, config: ConfigValue, now: int): (r: seq<HistoryEntry>)
    ensures |r| <= 1
    ensures r != [] <==> item.status != Skipped && outcome.Ok?
    ensures r != [] ==> r[0] == RecordFor(item.url, outcome.value, run, config, now)
  {
    if item.status != Skipped && outcome.Ok? then [RecordFor(item.url, outcome.value, run, config, now)] else []
  }

  /** A table each of whose items was settled: same URLs, every status settled, Skipped items untouched. */
  lemma {:induction false} SettleAll(before: seq<BatchDownloadItem>, after: seq<BatchDownloadItem>, outs: seq<Result<string, YtdlError>>, runs: seq<ItemRun>)
    requires |before| == |after| == |outs| == |runs|
    requires forall k :: 0 <= k < |after| ==> after[k] == Settle(before[k], outs[k], runs[k])
    ensures forall k :: 0 <= k < |after| ==> after[k].url == before[k].url && Settled(after[k].status)
    ensures forall k :: 0 <= k < |after| ==> (after[k].status == Skipped <==> before[k].status == Skipped)
    ensures forall k :: 0 <= k < |after| ==> (before[k].status == Skipped ==> after[k] == before[k])
  {
    forall k | 0 <= k < |after|
      ensures after[k].url == before[k].url && Settled(after[k].status)
      ensures after[k].status == Skipped <==> before[k].status == Skipped
      ensures before[k].status == Skipped ==> after[k] == before[k]
    {
      assert after[k] == Settle(before[k], outs[k], runs[k]);
    }
  }

  /** The entries the first `n` items add to the history, in item order. */
  function BatchRecords(items: seq<BatchDownloadItem>, outs: seq<Result<string, YtdlError>>, runs: seq<ItemRun>, n: nat,
                        config: ConfigValue, now: int): (r: seq<HistoryEntry>)
    requires n <= |items| == |outs| == |runs|
    ensures |r| <= n
  {
    if n == 0 then []
    else BatchRecords(items, outs, runs, n - 1, config, now) + RecordOf(items[n - 1], outs[n - 1], runs[n - 1], config, now)
  }

  /** Every item that was downloaded and finished with a file has its record among the batch's entries. */
  lemma {:induction false} BatchRecordsHas(items: seq<BatchDownloadItem>, outs: seq<Result<string, YtdlError>>, runs: seq<ItemRun>,
                                           n: nat, k: nat, config: ConfigValue, now: int)
    requires k < n <= |items| == |outs| == |runs|
    requires items[k].status != Skipped && outs[k].Ok?
    ensures RecordFor(items[k].url, outs[k].value, runs[k], config, now) in BatchRecords(items, outs, runs, n, config, now)
  {
    var x := RecordFor(items[k].url, outs[k].value, runs[k], config, now);
    var prev := BatchRecords(items, outs, runs, n - 1, config, now);
    var last := RecordOf(items[n - 1], outs[n - 1], runs[n - 1], config, now);
    assert BatchRecords(items, outs, runs, n, config, now) == prev + last;
    if k < n - 1 {
      BatchRecordsHas(items, outs, runs, n - 1, k, config, now);
      assert x in prev;
    } else {
      assert last == [x];
      assert (prev + last)[|prev|] == x;
    }
  }

  /** Every entry the batch adds is the record of one of its items. */
  lemma {:induction false} BatchRecordsFrom(items: seq<BatchDownloadItem>, outs: seq<Result<string, YtdlError>>, runs: seq<ItemRun>,
                                            n: nat, e: HistoryEntry, config: ConfigValue, now: int)
    requires n <= |items| == |outs| == |runs|
    requires e in BatchRecords(items, outs, runs, n, config, now)
    ensures exists k :: 0 <= k < n && RecordOf(items[k], outs[k], runs[k], config, now) == [e]
  {
    var prev := BatchRecords(items, outs, runs, n - 1, config, now);
    var last := RecordOf(items[n - 1], outs[n - 1], runs[n - 1], config, now);
    assert BatchRecords(items, outs, runs, n, config, now) == prev + last;
    if e in prev {
      BatchRecordsFrom(items, outs, runs, n - 1, e, config, now);
      var k :| 0 <= k < n - 1 && RecordOf(items[k], outs[k], runs[k], config, now) == [e];
    } else {
      assert e in last && |last| == 1;
      assert last == [last[0]] && last[0] == e;
      assert RecordOf(items[n - 1], outs[n - 1], runs[n - 1], config, now) == [e];
    }
  }

  /** One more item: the history so far followed by that item's record. */
  lemma {:induction false} BatchRecordsStep(base: seq<HistoryEntry>, entries: seq<HistoryEntry>, items: seq<BatchDownloadItem>,
                                            outs: seq<Result<string, YtdlError>>, runs: seq<ItemRun>, i: nat, config: ConfigValue, now: int)
    requires i < |items| == |outs| == |runs|
    requires entries == base + BatchRecords(items, outs, runs, i, config, now)
    ensures entries + RecordOf(items[i], outs[i], runs[i], config, now) == base + BatchRecords(items, outs, runs, i + 1, config, now)
  {
    var rec := RecordOf(items[i], outs[i], runs[i], config, now);
    assert BatchRecords(items, outs, runs, i + 1, config, now) == BatchRecords(items, outs, runs, i, config, now) + rec;
    assert base + (BatchRecords(items, outs, runs, i, config, now) + rec) == (base + BatchRecords(items, outs, runs, i, config, now)) + rec;
  }

  predicate Settled(s: DownloadStatus)
  {
    s == Complete || s.Failed? || s == Skipped
  }

  /** The status classes the progress report counts. */
  datatype StatusClass = CompleteClass | FailedClass | SkippedClass | DownloadingClass

  predicate InClass(s: DownloadStatus, c: StatusClass)
  {
    match c
    case CompleteClass => s == Complete
    case FailedClass => s.Failed?
    case SkippedClass => s == Skipped
    case DownloadingClass => s == Downloading
  }

  function CountOf(items: seq<BatchDownloadItem>, c: StatusClass): (n: nat)
    ensures n <= |items|
  {
    if items == [] then 0 else CountOf(items[..|items| - 1], c) + (if InClass(items[|items| - 1].status, c) then 1 else 0)
  }

  lemma {:induction false} CountOfSnoc(items: seq<BatchDownloadItem>, item: BatchDownloadItem, c: StatusClass)
    ensures CountOf(items + [item], c) == CountOf(items, c) + (if InClass(item.status, c) then 1 else 0)
  {
    assert (items + [item])[..|items|] == items;
  }

  /** How many of the results are errors. */
  function ErrorCount(results: seq<Result<(), YtdlError>>): (n: nat)
    ensures n <= |results|
  {
    if results == [] then 0 else ErrorCount(results[..|results| - 1]) + (if results[|results| - 1].Err? then 1 else 0)
  }

  /**
   * When a result is an error exactly if stop-on-error is set and its item failed, the errors
   * are the failed items (none without stop-on-error), and the Skipped items are among the
   * successes.
   */
  lemma {:induction false} ErrorsAreFailures(results: seq<Result<(), YtdlError>>, items: seq<BatchDownloadItem>, stopOnError: bool)
    requires |results| == |items|
    requires forall k :: 0 <= k < |results| ==> (results[k].Err? <==> stopOnError && items[k].status.Failed?)
    ensures !stopOnError ==> ErrorCount(results) == 0
    ensures stopOnError ==> ErrorCount(results) == CountOf(items, FailedClass)
    ensures CountOf(items, SkippedClass) <= |results| - ErrorCount(results)
  {
    if results != [] {
      var n := |results| - 1;
      ErrorsAreFailures(results[..n], items[..n], stopOnError);
    }
  }

  /**
   * What the download phase leaves, item by item: each item settled with its outcome, so the
   * URLs stay, every status is settled and Skipped items are untouched; the errors among the
   * results are the failed items under stop-on-error and none otherwise, and the Skipped
   * items are among the successes.
   */
  lemma {:induction false} DownloadSummary(start: seq<BatchDownloadItem>, items: seq<BatchDownloadItem>, outs: seq<Result<string, YtdlError>>,
                                           runs: seq<ItemRun>, results: seq<Result<(), YtdlError>>, stopOnError: bool)
    requires |start| == |outs| == |runs|
    requires items == SettledUpTo(start, outs, runs, |runs|)
    requires results == ItemResults(start, outs, |runs|, stopOnError)
    ensures |items| == |start| == |results|
    ensures forall k :: 0 <= k < |items| ==> items[k] == Settle(start[k], outs[k], runs[k])
    ensures forall k :: 0 <= k < |items| ==> items[k].url == start[k].url && Settled(items[k].status)
    ensures forall k :: 0 <= k < |items| ==> (items[k].status == Skipped <==> start[k].status == Skipped)
    ensures forall k :: 0 <= k < |items| ==> (start[k].status == Skipped ==> items[k] == start[k])
    ensures !stopOnError ==> ErrorCount(results) == 0
    ensures stopOnError ==> ErrorCount(results) == CountOf(items, FailedClass)
    ensures CountOf(items, SkippedClass) <= |results| - ErrorCount(results)
  {
    SettledUpToAll(start, outs, runs, |runs|);
    ItemResultsAll(start, outs, |runs|, stopOnError);
    forall k | 0 <= k < |results|
      ensures results[k].Err? <==> stopOnError && items[k].status.Failed?
    {
      assert results[k] == ItemResult(start[k], outs[k], stopOnError);
      assert items[k] == Settle(start[k], outs[k], runs[k]);
    }
    ErrorsAreFailures(results, items, stopOnError);
    SettleAll(start, items, outs, runs);
  }

  function TotalBytes(items: seq<BatchDownloadItem>): nat
  {
    if items == [] then 0 else TotalBytes(items[..|items| - 1]) + items[|items| - 1].fileSize
  }

  datatype BatchDownloadStats = BatchDownloadStats(total: nat, successful: nat, failed: nat, skipped: nat)

  datatype BatchProgress = BatchProgress(total: nat, complete: nat, failed: nat, skipped: nat, downloading: nat, totalBytes: nat)

  /** The status classes are disjoint, so their counts never add up to more than the items. */
  lemma {:induction false} CountsBounded(items: seq<BatchDownloadItem>)
    ensures CountOf(items, CompleteClass) + CountOf(items, FailedClass) + CountOf(items, SkippedClass) + CountOf(items, DownloadingClass)
            <= |items|
  {
    if items != [] {
      CountsBounded(items[..|items| - 1]);
    }
  }

  class BatchDownloader {
    var items: seq<BatchDownloadItem>
    const config: ConfigValue
    const history: History
    const stopOnError: bool
    const concurrentLimit: nat

    /** `new`: an empty table, with the configured parallelism clamped. */
    constructor (config: ConfigValue, history: History, stopOnError: bool)
      ensures items == [] && this.config == config && this.history == history && this.stopOnError == stopOnError
      ensures concurrentLimit == ConcurrentLimit(config.concurrentDownloads)
    {
      items := [];
      this.config := config;
      this.history := history;
      this.stopOnError := stopOnError;
      concurrentLimit := ConcurrentLimit(config.concurrentDownloads);
    }

    /**
     * `load_from_file`: reads the file (`content`), keeps its valid URL lines, and appends an
     * item for each after the existing ones; a file with none is an error and adds nothing.
     */
    method LoadFromFile(content: Result<string, string>) returns (r: Result<(), YtdlError>)
      modifies this
      ensures content.Err? ==> r == Err(Io(content.error)) && items == old(items)
      ensures content.Ok? && BatchUrls(Split(content.value, '\n')) == [] ==> r == Err(Config(NO_VALID_URLS)) && items == old(items)
      ensures content.Ok? && BatchUrls(Split(content.value, '\n')) != [] ==>
                r == Ok(()) && items == old(items) + NewItems(BatchUrls(Split(content.value, '\n')))
    {
      if content.Err? {
        return Err(Io(content.error));
      }
      var urls := ReadUrls(Split(content.value, '\n'));
      if urls == [] {
        return Err(Config(NO_VALID_URLS));
      }
      AppendNew(urls);
      return Ok(());
    }

    /** Appends a pending item per URL, in order. */
    method AppendNew(urls: seq<string>)
      modifies this
      ensures items == old(items) + NewItems(urls)
    {
      var j := 0;
      while j < |urls|
        invariant 0 <= j <= |urls|
        invariant items == old(items) + NewItems(urls[..j])
      {
        assert urls[..j + 1][..j] == urls[..j];
        items := items + [NewItem(urls[j])];
        j := j + 1;
      }
      assert urls[..j] == urls;
    }

    /**
     * `add_urls`: appends the URLs in order, stopping at the first invalid one, whose error
     * is returned; the URLs before it stay appended.
     */
    method AddUrls(urls: seq<string>) returns (r: Result<(), YtdlError>)
      modifies this
      ensures FirstInvalid(urls).None? ==> r == Ok(()) && items == old(items) + NewItems(urls)
      ensures FirstInvalid(urls).Some? ==>
                r == Err(ValidateYoutubeUrl(urls[FirstInvalid(urls).value]).error)
                && items == old(items) + NewItems(urls[..FirstInvalid(urls).value])
    {
      var j := 0;
      while j < |urls|
        invariant 0 <= j <= |urls|
        invariant items == old(items) + NewItems(urls[..j])
        invariant forall k :: 0 <= k < j ==> IsYoutubeUrl(urls[k])
      {
        var check := ValidateYoutubeUrl(urls[j]);
        if check.Err? {
          FirstInvalidAt(urls, j);
          return Err(check.error);
        }
        NewItemsSnoc(urls, j);
        items := items + [NewItem(urls[j])];
        j := j + 1;
      }
      assert urls[..j] == urls;
      return Ok(());
    }

    /** `check_duplicates`: the URLs the history holds, in item order; nothing changes. */
    method CheckDuplicates() returns (duplicates: seq<string>)
      ensures duplicates == DuplicateUrls(items, history.entries)
    {
      duplicates := [];
      var i := 0;
      while i < |items|
        invariant 0 <= i <= |items|
        invariant duplicates == DuplicateUrls(items[..i], history.entries)
      {
        assert items[..i + 1][..i] == items[..i];
        if history.ContainsUrl(items[i].url) {
          duplicates := duplicates + [items[i].url];
        }
        i := i + 1;
      }
      assert items[..i] == items;
    }

    /** `skip_duplicates`: marks Skipped every item whose URL the history holds. */
    method SkipDuplicates()
      modifies this
      ensures items == SkippedDuplicates(old(items), history.entries)
    {
      var i := 0;
      while i < |items|
        invariant 0 <= i <= |items| && |items| == |old(items)|
        invariant forall k :: 0 <= k < i ==> items[k] == MarkSkipped(old(items)[k], history.entries)
        invariant forall k :: i <= k < |items| ==> items[k] == old(items)[k]
      {
        if history.ContainsUrl(items[i].url) {
          items := items[i := items[i].(status := Skipped)];
        }
        i := i + 1;
      }
    }

    /**
     * `download_item`: a Skipped item is left alone and the downloader is not called.
     * Otherwise the item goes Downloading, the tool runs, and the item ends complete (and
     * the history gains its entry) or failed; a failure is returned only under stop-on-error.
     */
    method DownloadItem(index: nat, run: ItemRun, now: int) returns (called: bool, r: Result<(), YtdlError>)
      requires index < |items|
      modifies this, history
      ensures called <==> old(items)[index].status != Skipped
      ensures |items| == |old(items)| && forall k :: 0 <= k < |items| && k != index ==> items[k] == old(items)[k]
      ensures items[index].url == old(items)[index].url && Settled(items[index].status)
      ensures items[index].status == Skipped <==> old(items)[index].status == Skipped
      ensures !stopOnError ==> r.Ok?
      ensures stopOnError ==> (r.Err? <==> items[index].status.Failed?)
      ensures !called ==> r == Ok(()) && items == old(items) && history.entries == old(history.entries)
      ensures called ==> items == old(items)[index := AfterDownload(old(items)[index], Outcome(config.outputDir, run.tool), run)]
      ensures called && Outcome(config.outputDir, run.tool).Ok? ==>
                r == Ok(()) && history.entries == old(history.entries) + [RecordFor(old(items)[index].url, Outcome(config.outputDir, run.tool).value, run, config, now)]
      ensures called && Outcome(config.outputDir, run.tool).Err? ==>
                history.entries == old(history.entries)
                && r == (if stopOnError then Err(Outcome(config.outputDir, run.tool).error) else Ok(()))
    {
      if items[index].status == Skipped {
        return false, Ok(());
      }
      called := true;
      var url := items[index].url;
      items := items[index := items[index].(status := Downloading)];
      var d := DL.Downloader(config.outputDir, config.quality);
      var invoked, result := DownloadWithResume(d, url, config.audioOnly, false, run.tool);
      match result {
        case Ok(path) =>
          var fileSize := run.fileSize.GetOr(0);
          var title := run.fetchedTitle.GetOr(url);
          items := items[index := items[index].(status := Complete, outputPath := Some(path), progress := 100.0,
                                                fileSize := fileSize, title := Some(title))];
          history.AddEntry(NewEntry(url, title, path, fileSize, config.quality, if config.audioOnly then "mp3" else "mp4", now));
          r := Ok(());
        case Err(e) =>
          items := items[index := items[index].(status := Failed(Display(e)))];
          r := if stopOnError then Err(e) else Ok(());
      }
    }

    /**
     * One step of `download_all`: what `download_item` leaves behind in the table, reports,
     * and adds to a history that so far holds the records of the items before `index`
     * (`outs` holds each item's outcome).
     */
    method SettleItem(index: nat, now: int, runs: seq<ItemRun>, ghost outs: seq<Result<string, YtdlError>>,
                      ghost start: seq<BatchDownloadItem>, ghost base: seq<HistoryEntry>) returns (r: Result<(), YtdlError>)
      requires index < |items| == |start| == |runs| && items[index] == start[index]
      requires OutcomesOf(config.outputDir, runs, outs)
      requires history.entries == base + BatchRecords(start, outs, runs, index, config, now)
      modifies this, history
      ensures items == old(items)[index := Settle(old(items)[index], outs[index], runs[index])]
      ensures history.entries == base + BatchRecords(start, outs, runs, index + 1, config, now)
      ensures r == ItemResult(old(items)[index], outs[index], stopOnError)
    {
      ghost var entries := history.entries;
      var called;
      called, r := DownloadItem(index, runs[index], now);
      assert outs[index] == Outcome(config.outputDir, runs[index].tool);
      BatchRecordsStep(base, entries, start, outs, runs, index, config, now);
    }

    /**
     * The download phase of `download_all`: `download_item` on every index, its results
     * collected in index order. Each item ends as `Settle` leaves it with its outcome
     * (`outs`), the history gains the records of the downloads that finished with a file,
     * and each result is what `download_item` returned.
     */
    method DownloadEach(runs: seq<ItemRun>, now: int, ghost outs: seq<Result<string, YtdlError>>) returns (results: seq<Result<(), YtdlError>>)
      requires |runs| == |items| && OutcomesOf(config.outputDir, runs, outs)
      modifies this, history
      ensures items == SettledUpTo(old(items), outs, runs, |runs|)
      ensures results == ItemResults(old(items), outs, |runs|, stopOnError)
      ensures history.entries == old(history.entries) + BatchRecords(old(items), outs, runs, |runs|, config, now)
    {
      ghost var start, base := items, history.entries;
      results := [];
      var i := 0;
      while i < |runs|
        invariant 0 <= i <= |runs| == |items|
        invariant items == SettledUpTo(start, outs, runs, i)
        invariant results == ItemResults(start, outs, i, stopOnError)
        invariant history.entries == base + BatchRecords(start, outs, runs, i, config, now)
      {
        ghost var before := items;
        SettledUpToRest(start, outs, runs, i);
        var result := SettleItem(i, now, runs, outs, start, base);
        EachStep(start, outs, runs, i, stopOnError, before, items, results, result);
        results := results + [result];
        i := i + 1;
      }
    }

    /**
     * `download_all`: every item once, in index order; each result is counted as a success
     * or a failure, so the two add up to the number of items, and the Skipped items are
     * counted from the table. Once the history is saved (`saved` is the save's outcome) the
     * statistics are returned.
     */
    method DownloadAll(runs: seq<ItemRun>, now: int, saved: Result<(), YtdlError>) returns (stats: BatchDownloadStats, r: Result<BatchDownloadStats, YtdlError>)
      requires |runs| == |items|
      modifies this, history
      ensures |items| == |old(items)| && stats.total == |items|
      ensures stats.successful + stats.failed == stats.total
      ensures !stopOnError ==> stats.failed == 0
      ensures stopOnError ==> stats.failed == CountOf(items, FailedClass)
      ensures stats.skipped == CountOf(items, SkippedClass) && stats.skipped <= stats.successful
      ensures forall i :: 0 <= i < |items| ==> items[i].url == old(items)[i].url && Settled(items[i].status)
      ensures forall i :: 0 <= i < |items| ==> (items[i].status == Skipped <==> old(items)[i].status == Skipped)
      ensures forall i :: 0 <= i < |items| ==> (old(items)[i].status == Skipped ==> items[i] == old(items)[i])
      ensures forall i :: 0 <= i < |items| ==> items[i] == Settle(old(items)[i], Outcomes(config.outputDir, runs)[i], runs[i])
      ensures history.entries == old(history.entries) + BatchRecords(old(items), Outcomes(config.outputDir, runs), runs, |runs|, config, now)
      ensures saved.Err? ==> r == Err(saved.error)
      ensures saved.Ok? ==> r == Ok(stats)
    {
      var total := |items|;
      ghost var start, outs := items, Outcomes(config.outputDir, runs);
      var results := DownloadEach(runs, now, outs);
      var successful, failed := 0, 0;
      var j := 0;
      while j < |results|
        invariant 0 <= j <= |results| && successful + failed == j
        invariant failed == ErrorCount(results[..j])
      {
        assert results[..j + 1][..j] == results[..j];
        if results[j].Ok? {
          successful := successful + 1;
        } else {
          failed := failed + 1;
        }
        j := j + 1;
      }
      assert results[..j] == results;
      DownloadSummary(start, items, outs, runs, results, stopOnError);
      stats := BatchDownloadStats(total, successful, failed, CountOf(items, SkippedClass));
      r := if saved.Err? then Err(saved.error) else Ok(stats);
    }

    /** `get_progress`: the count of each status class and the bytes of all files. */
    function GetProgress(): (p: BatchProgress)
      reads this
      ensures p.total == |items|
      ensures p.complete + p.failed + p.skipped + p.downloading <= p.total
      ensures p.totalBytes == TotalBytes(items)
    {
      CountsBounded(items);
      BatchProgress(|items|,
        CountOf(items, CompleteClass),
        CountOf(items, FailedClass),
        CountOf(items, SkippedClass),
        CountOf(items, DownloadingClass),
        TotalBytes(items))
    }
  }
}
