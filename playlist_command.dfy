/**
 * The playlist command: an optional `--range A-B` picks the videos to download by their
 * playlist index; without one the whole playlist is fetched and downloaded. The messages
 * printed along the way are left out; the count of downloaded videos they report is
 * returned as `paths`.
 */
module PlaylistCommand {
  import opened Wrappers
  import opened Text
  import opened Shared
  import opened AppConfig
  import opened DL = Downloader
  import opened Playlist

  const INVALID_RANGE: string := "Invalid range format"
  const RANGE_USAGE: string := "Invalid range format. Use: --range 1-10"

  /**
   * The range text split at its '-' characters: exactly two pieces are needed, else the usage
   * message; each piece is then read as an unsigned machine word, the first one first.
   */
  function ParseRange(range: string): (r: Result<(nat, nat), YtdlError>)
    ensures |Split(range, '-')| != 2 ==> r == Err(Config(RANGE_USAGE))
    ensures |Split(range, '-')| == 2 && r.Err? ==> r == Err(Config(INVALID_RANGE))
    ensures r.Ok? ==> exists a, b :: range == a + "-" + b && ParseU64(a) == Some(r.value.0) && ParseU64(b) == Some(r.value.1)
  {
    var parts := Split(range, '-');
    if |parts| != 2 then Err(Config(RANGE_USAGE))
    else
      match ParseU64(parts[0])
      case None => Err(Config(INVALID_RANGE))
      case Some(start) =>
        match ParseU64(parts[1])
        case None => Err(Config(INVALID_RANGE))
        case Some(end) =>
          SplitJoin(range, '-');
          assert range == parts[0] + "-" + parts[1];
          Ok((start, end))
  }

  /** Every range written as two decimal numbers and a dash is read back as those numbers. */
  lemma {:induction false} RangeRoundTrip(start: nat, end: nat)
    requires start <= U64_MAX && end <= U64_MAX
    ensures ParseRange(NatToString(start) + "-" + NatToString(end)) == Ok((start, end))
  {
    var a, b := NatToString(start), NatToString(end);
    assert '-' !in a && '-' !in b by {
      assert forall c :: c in a ==> IsDigit(c);
      assert forall c :: c in b ==> IsDigit(c);
    }
    SplitLast(a, b, '-');
    assert Split(a + "-" + b, '-') == [a, b];
    ParseU64RoundTrip(start);
    ParseU64RoundTrip(end);
  }

  /** A range without a dash, or with more than one, gets the usage message. */
  lemma {:induction false} RangeNeedsOneDash(a: string, b: string, c: string)
    requires '-' !in a && '-' !in b
    ensures ParseRange(a) == Err(Config(RANGE_USAGE))
    ensures ParseRange(a + "-" + b + "-" + c) == Err(Config(RANGE_USAGE))
  {
    var x := a + "-" + b + "-" + c;
    assert x[|a|] == '-';
    assert x[..|a|] == a;
    assert FirstIndex(x, '-') == |a|;
    assert x[|a| + 1..] == b + "-" + c;
    var y := b + "-" + c;
    assert y[|b|] == '-';
    assert y[..|b|] == b;
    assert FirstIndex(y, '-') == |b|;
    assert y[|b| + 1..] == c;
    assert |Split(x, '-')| == 2 + |Split(c, '-')|;
  }

  /** A side that is no number, the empty side included, is an invalid range. */
  lemma {:induction false} RangeSideNotNumber(a: string, b: string)
    requires '-' !in a && '-' !in b
    requires ParseU64(a).None? || ParseU64(b).None?
    ensures ParseRange(a + "-" + b) == Err(Config(INVALID_RANGE))
  {
    SplitLast(a, b, '-');
    assert Split(a + "-" + b, '-') == [a, b];
  }

  /** A fetched playlist has every video selected, and at least one. */
  lemma {:induction false} FetchedAllSelected(url: string, run: ListingRun)
    requires FetchOutcome(url, run).Ok?
    ensures Selected(FetchOutcome(url, run).value.videos) == FetchOutcome(url, run).value.videos != []
  {
    var videos := VideosOf(run.lines);
    assert forall k :: 0 <= k < |videos| ==> videos[k].selected by {
      forall k | 0 <= k < |videos| ensures videos[k].selected {
        assert videos[k] in videos;
      }
    }
    AllSelected(videos);
  }

  lemma {:induction false} AllSelected(videos: seq<PlaylistVideo>)
    requires forall k :: 0 <= k < |videos| ==> videos[k].selected
    ensures Selected(videos) == videos
  {
    if videos != [] {
      var n := |videos| - 1;
      var front := videos[..n];
      assert forall k :: 0 <= k < |front| ==> front[k].selected;
      AllSelected(front);
      assert front + [videos[n]] == videos;
    }
  }

  /**
   * `handle_playlist_download`. The folder only marks the downloader and changes nothing it
   * does. With a range: a malformed range is refused before anything runs, else the range
   * download's result stands. Without one: the fetch's error stands, and after a successful
   * fetch the command succeeds whatever the individual downloads do.
   */
  method HandlePlaylistDownload(url: string, config: ConfigValue, range: Option<string>, folder: Option<string>,
                                run: ListingRun, runFor: nat -> ToolRun)
    returns (fetched: bool, paths: seq<string>, r: Result<(), YtdlError>)
    ensures range.Some? && ParseRange(range.value).Err? ==> !fetched && r == Err(ParseRange(range.value).error)
    ensures range.Some? && ParseRange(range.value).Ok? ==>
              var outcome := RangeOutcome(NewPlaylistDownloader(config.outputDir, config.quality), url,
                                          ParseRange(range.value).value.0, ParseRange(range.value).value.1, run, runFor);
              fetched && (r.Ok? <==> outcome.Ok?) && (outcome.Err? ==> r == Err(outcome.error))
              && (outcome.Ok? ==> paths == outcome.value)
    ensures range.None? ==> fetched && (r.Ok? <==> FetchOutcome(url, run).Ok?)
    ensures range.None? && FetchOutcome(url, run).Err? ==> r == Err(FetchOutcome(url, run).error)
    ensures range.None? && FetchOutcome(url, run).Ok? ==>
              paths == SuccessPaths(DL.Downloader(config.outputDir, config.quality), FetchOutcome(url, run).value.videos, runFor)
    ensures forall p :: p in paths ==> p == config.outputDir
  {
    var pd := NewPlaylistDownloader(config.outputDir, config.quality);
    if folder.Some? {
      pd := WithFolder(pd, folder.value);
    }
    paths := [];
    if range.Some? {
      var parsed := ParseRange(range.value);
      if parsed.Err? {
        return false, paths, Err(parsed.error);
      }
      fetched := true;
      var (start, end) := parsed.value;
      var result := DownloadRange(pd, url, start, end, config.audioOnly, run, runFor);
      if result.Err? {
        return fetched, paths, Err(result.error);
      }
      paths := result.value;
      return fetched, paths, Ok(());
    }
    fetched := true;
    var invoked, info := FetchPlaylistInfo(url, run);
    if info.Err? {
      return fetched, paths, Err(info.error);
    }
    FetchedAllSelected(url, run);
    var result := DownloadPlaylist(pd, info.value, config.audioOnly, runFor);
    paths := result.value;
    r := Ok(());
  }
}
