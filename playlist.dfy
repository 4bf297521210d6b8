/**
 * Playlists (flat tree): recognising a playlist URL and its id, reading the tool's
 * flat-playlist listing into videos, selecting a range of them, and downloading the
 * selected ones one after another.
 *
 * The listing run is an input: whether the process could be started, whether it exited
 * successfully, its stderr text, and its stdout lines, each parsed as JSON or not (`None`).
 * Each video download's run is given by `runFor`, keyed by the video's index.
 */
module Playlist {
  import opened Wrappers
  import opened Text
  import opened Shared
  import opened Utils
  import opened DL = Downloader
  import opened FlatDownloader

  // ---------------------------------------------------------------- recognising URLs

  const PLAYLIST_PATH: string := "youtube.com/playlist?list="
  const WATCH_PATH: string := "youtube.com/watch?"
  const SHORT_HOST: string := "youtu.be/"
  const LIST_PARAM: string := "list="
  const QUERY_LIST: string := "?list="

  /** `p` occurs in `s` at `i`. */
  predicate Occurs(s: string, p: string, i: nat)
  {
    i + |p| <= |s| && s[i..i + |p|] == p
  }

  /**
   * The regular expression `p.*q`: `p` occurs, and `q` occurs later on the same line
   * (`.` matches anything but a newline).
   */
  predicate FollowedInLine(s: string, p: string, q: string)
  {
    exists i: nat, j: nat | i + |p| <= j && j + |q| <= |s| :: Occurs(s, p, i) && Occurs(s, q, j) && '\n' !in s[i + |p|..j]
  }

  /** `is_playlist_url`: any of the three playlist patterns matches somewhere in the URL. */
  predicate IsPlaylistUrl(url: string)
  {
    Contains(url, PLAYLIST_PATH) || FollowedInLine(url, WATCH_PATH, LIST_PARAM) || FollowedInLine(url, SHORT_HOST, QUERY_LIST)
  }

  /** A character `q` needs but `s` lacks keeps `p.*q` from matching. */
  lemma {:induction false} NotFollowedWithout(s: string, p: string, q: string, c: char)
    requires c in q && c !in s
    ensures !FollowedInLine(s, p, q)
  {
    var k :| 0 <= k < |q| && q[k] == c;
    forall j: nat | j + |q| <= |s| ensures !Occurs(s, q, j) {
      assert s[j..j + |q|][k] == s[j + k];
    }
  }

  /** A character `p` needs but `s` lacks keeps `p` out of `s`. */
  lemma {:induction false} NotContainsLetter(s: string, p: string, c: char)
    requires c in p && c !in s
    ensures !Contains(s, p)
  {
    var k :| 0 <= k < |p| && p[k] == c;
    forall i | 0 <= i <= |s| ensures !StartsWith(s[i..], p) {
      if i + |p| <= |s| {
        assert s[i..][..|p|][k] == s[i + k];
      }
    }
  }

  /** The recognition examples of the module's own tests: a playlist page, a watch page in a playlist, a lone video. */
  lemma PlaylistPageExample()
    ensures IsPlaylistUrl("https://youtube.com/playlist?list=PLtest")
  {
    var a := "https://youtube.com/playlist?list=PLtest";
    assert StartsWith(a[8..], PLAYLIST_PATH);
    ContainsAt(a, PLAYLIST_PATH, 8);
  }

  lemma WatchInPlaylistExample()
    ensures IsPlaylistUrl("https://youtube.com/watch?v=test&list=PLtest")
  {
    var b := "https://youtube.com/watch?v=test&list=PLtest";
    OccursAt(b, WATCH_PATH, 8);
    OccursAt(b, LIST_PARAM, 33);
    assert forall m :: 26 <= m < 33 ==> b[m] != '\n';
    assert '\n' !in b[26..33];
  }

  lemma LoneVideoExample()
    ensures !IsPlaylistUrl("https://" + "youtube.com/" + "watch?v=test")
  {
    var c := "https://" + "youtube.com/" + "watch?v=test";
    Lacks("https://", 'l');
    Lacks("youtube.com/", 'l');
    Lacks("watch?v=test", 'l');
    NotContainsLetter(c, PLAYLIST_PATH, 'l');
    NotFollowedWithout(c, WATCH_PATH, LIST_PARAM, 'l');
    NotFollowedWithout(c, SHORT_HOST, QUERY_LIST, 'l');
  }

  /** A URL the validator accepts as a playlist page is a playlist URL here too. */
  lemma {:induction false} PlaylistPageIsPlaylistUrl(url: string)
    requires MatchesPattern(url, PLAYLIST_PATH)
    ensures IsPlaylistUrl(url)
  {
    var k: nat :| k <= |url| && StartsWith(url[k..], PLAYLIST_PATH) by {
      if PrefixThenId(url, "http://" + PLAYLIST_PATH) {
        assert url[7..][..|PLAYLIST_PATH|] == url[..|"http://" + PLAYLIST_PATH|][7..];
      } else if PrefixThenId(url, "https://" + PLAYLIST_PATH) {
        assert url[8..][..|PLAYLIST_PATH|] == url[..|"https://" + PLAYLIST_PATH|][8..];
      } else if PrefixThenId(url, "http://www." + PLAYLIST_PATH) {
        assert url[11..][..|PLAYLIST_PATH|] == url[..|"http://www." + PLAYLIST_PATH|][11..];
      } else {
        assert url[12..][..|PLAYLIST_PATH|] == url[..|"https://www." + PLAYLIST_PATH|][12..];
      }
    }
    ContainsAt(url, PLAYLIST_PATH, k);
  }

  // ---------------------------------------------------------------- the playlist id

  /** The first pattern, `[?&]list=([a-zA-Z0-9_-]+)`, matches at `i`. */
  predicate ListMatchAt(s: string, i: nat)
  {
    i + 7 <= |s| && (s[i] == '?' || s[i] == '&') && s[i + 1..i + 6] == LIST_PARAM && IsIdChar(s[i + 6])
  }

  /** The second pattern, `playlist\?list=([a-zA-Z0-9_-]+)`, matches at `i`. */
  predicate PlaylistMatchAt(s: string, i: nat)
  {
    i + 15 <= |s| && s[i..i + 14] == "playlist?list=" && IsIdChar(s[i + 14])
  }

  /** The leftmost position from `i` on where the first pattern matches. */
  function FirstListMatch(s: string, i: nat): (r: Option<nat>)
    ensures r.Some? ==> i <= r.value && ListMatchAt(s, r.value) && forall k :: i <= k < r.value ==> !ListMatchAt(s, k)
    ensures r.None? ==> forall k :: i <= k ==> !ListMatchAt(s, k)
    decreases |s| - i
  {
    if i + 7 > |s| then None
    else if ListMatchAt(s, i) then Some(i)
    else FirstListMatch(s, i + 1)
  }

  /** The leftmost position from `i` on where the second pattern matches. */
  function FirstPlaylistMatch(s: string, i: nat): (r: Option<nat>)
    ensures r.Some? ==> i <= r.value && PlaylistMatchAt(s, r.value)
    ensures r.None? ==> forall k :: i <= k ==> !PlaylistMatchAt(s, k)
    decreases |s| - i
  {
    if i + 15 > |s| then None
    else if PlaylistMatchAt(s, i) then Some(i)
    else FirstPlaylistMatch(s, i + 1)
  }

  /** The captured id: the maximal run of id characters from `k`. */
  function IdRun(s: string, k: nat): (id: string)
    requires k <= |s|
    ensures id == s[k..SkipWhile(s, k, IsIdChar)]
    ensures forall c :: c in id ==> IsIdChar(c)
  {
    var e := SkipWhile(s, k, IsIdChar);
    assert forall c :: c in s[k..e] ==> IsIdChar(c) by {
      forall c | c in s[k..e] ensures IsIdChar(c) {
        var m :| 0 <= m < e - k && s[k..e][m] == c;
        assert s[k + m] == c;
      }
    }
    s[k..e]
  }

  /**
   * `extract_playlist_id`: the id after the leftmost "?list=" or "&list=" followed by an id
   * character, else the id after the leftmost "playlist?list=", else nothing.
   */
  function ExtractPlaylistId(url: string): (r: Option<string>)
    ensures r.Some? ==> r.value != [] && forall c :: c in r.value ==> IsIdChar(c)
    ensures FirstListMatch(url, 0).Some? ==> r == Some(IdRun(url, FirstListMatch(url, 0).value + 6))
  {
    match FirstListMatch(url, 0)
    case Some(i) => Some(IdRun(url, i + 6))
    case None =>
      match FirstPlaylistMatch(url, 0)
      case Some(i) => Some(IdRun(url, i + 14))
      case None => None
  }

  /**
   * The id is present exactly when some "?list=" or "&list=" is followed by an id character;
   * it is then the maximal run after the leftmost one. The second pattern can never decide,
   * since each of its matches holds a match of the first.
   */
  lemma {:induction false} ExtractPlaylistIdExactly(url: string)
    ensures ExtractPlaylistId(url).Some? <==> exists i: nat :: ListMatchAt(url, i)
    ensures ExtractPlaylistId(url).Some? ==>
              exists i: nat :: ListMatchAt(url, i) && (forall k: nat :: k < i ==> !ListMatchAt(url, k))
                          && ExtractPlaylistId(url) == Some(IdRun(url, i + 6))
  {
    if FirstListMatch(url, 0).None? {
      var p := FirstPlaylistMatch(url, 0);
      if p.Some? {
        var i := p.value;
        assert url[i..i + 14][8..] == url[i + 8..i + 14];
        assert url[i + 8..i + 14][1..] == url[i + 9..i + 14];
        assert ListMatchAt(url, i + 8);
      }
    }
  }

  /** The id examples of the module's own tests. */
  lemma PlaylistPageIdExample()
    ensures ExtractPlaylistId("https://youtube.com/playlist" + "?list=" + "PLtest123") == Some("PLtest123")
  {
    var a := "https://youtube.com/playlist" + "?list=" + "PLtest123";
    PlaylistPageFirstMatch(a);
    IdRunToEnd(a, 34);
    PiecesOfThree("https://youtube.com/playlist", "?list=", "PLtest123");
  }

  lemma PlaylistPageFirstMatch(a: string)
    requires a == "https://youtube.com/playlist" + "?list=" + "PLtest123"
    ensures FirstListMatch(a, 0) == Some(28)
  {
    NoMatchIn(a, 0, 28);
    ListMatchFrom(a, 28);
    FirstListMatchAt(a, 28);
  }

  lemma WatchInPlaylistIdExample()
    ensures ExtractPlaylistId("https://youtube.com/watch?v=" + "abc&list=" + "PLtest456") == Some("PLtest456")
  {
    var b := "https://youtube.com/watch?v=" + "abc&list=" + "PLtest456";
    WatchInPlaylistFirstMatch(b);
    IdRunToEnd(b, 37);
    PiecesOfThree("https://youtube.com/watch?v=", "abc&list=", "PLtest456");
  }

  lemma WatchInPlaylistFirstMatch(b: string)
    requires b == "https://youtube.com/watch?v=" + "abc&list=" + "PLtest456"
    ensures FirstListMatch(b, 0) == Some(31)
  {
    NoMatchIn(b, 0, 25);
    assert b[26] != 'l';
    NoMatchIn(b, 26, 31);
    ListMatchFrom(b, 31);
    FirstListMatchAt(b, 31);
  }

  lemma LoneVideoIdExample()
    ensures ExtractPlaylistId("https://" + "youtube.com/" + "watch?v=abc") == None
  {
    var c := "https://" + "youtube.com/" + "watch?v=abc";
    Lacks("https://", 'l');
    Lacks("youtube.com/", 'l');
    Lacks("watch?v=abc", 'l');
    forall k: nat | k + 7 <= |c| ensures !ListMatchAt(c, k) {
      assert c[k + 1..k + 6][0] == c[k + 1];
    }
    forall k: nat | k + 15 <= |c| ensures !PlaylistMatchAt(c, k) {
      assert c[k..k + 14][1] == c[k + 1];
    }
  }

  /** Where neither '?' nor '&' occurs, the first pattern cannot begin. */
  lemma {:induction false} NoMatchIn(s: string, lo: nat, hi: nat)
    requires lo <= hi <= |s| && forall k :: lo <= k < hi ==> s[k] != '?' && s[k] != '&'
    ensures forall k: nat :: lo <= k < hi ==> !ListMatchAt(s, k)
  {
  }

  /** The first pattern matches where its characters stand one by one. */
  lemma {:induction false} ListMatchFrom(s: string, i: nat)
    requires i + 7 <= |s| && (s[i] == '?' || s[i] == '&') && IsIdChar(s[i + 6])
    requires s[i + 1] == 'l' && s[i + 2] == 'i' && s[i + 3] == 's' && s[i + 4] == 't' && s[i + 5] == '='
    ensures ListMatchAt(s, i)
  {
    assert s[i + 1..i + 6] == LIST_PARAM;
  }

  /** A match with none before it is the leftmost one. */
  lemma {:induction false} FirstListMatchAt(s: string, i: nat)
    requires ListMatchAt(s, i) && forall k: nat :: k < i ==> !ListMatchAt(s, k)
    ensures FirstListMatch(s, 0) == Some(i)
  {
    var r := FirstListMatch(s, 0);
    assert r.Some?;
    assert !(r.value < i);
  }

  /** `p` occurs at `i` when its characters stand there one by one. */
  lemma {:induction false} OccursAt(s: string, p: string, i: nat)
    requires i + |p| <= |s| && forall m :: 0 <= m < |p| ==> s[i + m] == p[m]
    ensures Occurs(s, p, i)
  {
    assert s[i..i + |p|] == p;
  }

  /** When the rest of the text is all id characters, the run takes all of it. */
  lemma {:induction false} IdRunToEnd(s: string, k: nat)
    requires k <= |s| && forall m :: k <= m < |s| ==> IsIdChar(s[m])
    ensures IdRun(s, k) == s[k..]
  {
  }

  // ---------------------------------------------------------------- reading a listing

  datatype PlaylistVideo = PlaylistVideo(url: string, title: string, duration: Option<nat>, index: nat, selected: bool)

  datatype PlaylistInfo = PlaylistInfo(id: string, title: string, uploader: Option<string>, videoCount: nat, videos: seq<PlaylistVideo>)

  /** What the listing run delivered. */
  datatype ListingRun = ListingRun(spawn: Option<string>, success: bool, stderr: string, lines: seq<Option<Json>>)

  const NOT_A_PLAYLIST: string := "URL is not a valid playlist URL"
  const NO_VIDEOS: string := "No videos found in playlist"
  const NOTHING_SELECTED: string := "No videos selected for download"
  const WATCH_URL_PREFIX: string := "https://www.youtube.com/watch?v="
  const UNKNOWN_VIDEO_TITLE: string := "Unknown"
  const PLAYLIST_TITLE_PREFIX: string := "Playlist "

  /** `Value::get`: the member when the value is an object holding the key (null included). */
  function Get(v: Json, key: string): Option<Json>
  {
    if v.JObject? && key in v.fields then Some(v.fields[key]) else None
  }

  function StrField(v: Json, key: string): Option<string>
  {
    match Get(v, key)
    case Some(m) => AsStr(m)
    case None => None
  }

  /**
   * The video one parsed line describes (`index` is the line's number from 0): its "url",
   * or when that key is absent its "webpage_url", when a string; else the watch URL of its
   * "id"; a line with none of these describes no video.
   */
  function VideoOf(j: Json, index: nat): (r: Option<PlaylistVideo>)
    ensures StrField(j, "url").Some? ==> r.Some? && r.value.url == StrField(j, "url").value
    ensures Get(j, "url").None? && StrField(j, "webpage_url").Some? ==>
              r.Some? && r.value.url == StrField(j, "webpage_url").value
    ensures (Get(j, "url").Some? && StrField(j, "url").None?) || (Get(j, "url").None? && StrField(j, "webpage_url").None?) ==>
              (r.Some? <==> StrField(j, "id").Some?)
              && (r.Some? ==> r.value.url == WATCH_URL_PREFIX + StrField(j, "id").value)
    ensures r.Some? ==> r.value.index == index + 1 && r.value.selected
    ensures r.Some? ==> r.value.title == (if StrField(j, "title").Some? then StrField(j, "title").value else UNKNOWN_VIDEO_TITLE)
    ensures r.Some? ==> r.value.duration == (if Get(j, "duration").Some? then AsU64(Get(j, "duration").value) else None)
  {
    var linked := if Get(j, "url").Some? then Get(j, "url") else Get(j, "webpage_url");
    var videoUrl := if linked.Some? then AsStr(linked.value) else None;
    var videoId := StrField(j, "id");
    var finalUrl :=
      if videoUrl.Some? then Some(videoUrl.value)
      else if videoId.Some? then Some(WATCH_URL_PREFIX + videoId.value)
      else None;
    if finalUrl.None? then None
    else
      var title := if StrField(j, "title").Some? then StrField(j, "title").value else UNKNOWN_VIDEO_TITLE;
      var duration := if Get(j, "duration").Some? then AsU64(Get(j, "duration").value) else None;
      Some(PlaylistVideo(finalUrl.value, title, duration, index + 1, true))
  }

  /** The videos of a listing's lines, in line order. */
  function VideosOf(lines: seq<Option<Json>>): (r: seq<PlaylistVideo>)
    ensures |r| <= |lines|
    ensures forall v :: v in r ==> 1 <= v.index <= |lines| && v.selected
  {
    VideosByIndexed(lines, VideoOf);
    VideosBy(lines, VideoOf)
  }

  /** The videos `of` reads from the lines, given each line and its number, in line order. */
  function VideosBy(lines: seq<Option<Json>>, of: (Json, nat) -> Option<PlaylistVideo>): (r: seq<PlaylistVideo>)
    ensures |r| <= |lines|
  {
    if lines == [] then []
    else
      var n := |lines| - 1;
      VideosBy(lines[..n], of) + (if lines[n].Some? && of(lines[n].value, n).Some? then [of(lines[n].value, n).value] else [])
  }

  /** A reader that numbers each video after its line and selects it. */
  ghost predicate Numbering(of: (Json, nat) -> Option<PlaylistVideo>)
  {
    forall j, i: nat :: of(j, i).Some? ==> of(j, i).value.index == i + 1 && of(j, i).value.selected
  }

  lemma {:induction false} VideosByIndexed(lines: seq<Option<Json>>, of: (Json, nat) -> Option<PlaylistVideo>)
    requires Numbering(of)
    ensures forall v :: v in VideosBy(lines, of) ==> 1 <= v.index <= |lines| && v.selected
  {
    if lines != [] {
      VideosByIndexed(lines[..|lines| - 1], of);
    }
  }

  lemma {:induction false} VideosOfSnoc(lines: seq<Option<Json>>, i: nat)
    requires i < |lines|
    ensures VideosOf(lines[..i + 1]) ==
            VideosOf(lines[..i]) + (if lines[i].Some? && VideoOf(lines[i].value, i).Some? then [VideoOf(lines[i].value, i).value] else [])
  {
    assert lines[..i + 1][..i] == lines[..i];
  }

  /** The playlist's title, id and uploader, read from line 0 only, when it parsed. */
  function HeaderOf(lines: seq<Option<Json>>): (string, string, Option<string>)
  {
    if lines == [] || lines[0].None? then ("", "", None)
    else
      var j := lines[0].value;
      (StrField(j, "playlist_title").GetOr(""), StrField(j, "playlist_id").GetOr(""), StrField(j, "uploader"))
  }

  /** The playlist a successful listing describes, or its error. */
  function InfoOf(lines: seq<Option<Json>>): (r: Result<PlaylistInfo, YtdlError>)
    ensures r.Err? <==> VideosOf(lines) == []
    ensures r.Err? ==> r.error == Other(NO_VIDEOS)
    ensures r.Ok? ==> r.value.videos == VideosOf(lines) && r.value.videoCount == |r.value.videos|
    ensures r.Ok? ==> r.value.id == HeaderOf(lines).1 && r.value.uploader == HeaderOf(lines).2
    ensures r.Ok? ==> r.value.title == (if HeaderOf(lines).0 == "" then PLAYLIST_TITLE_PREFIX + HeaderOf(lines).1 else HeaderOf(lines).0)
  {
    var videos := VideosOf(lines);
    if videos == [] then Err(Other(NO_VIDEOS))
    else
      var (title, id, uploader) := HeaderOf(lines);
      Ok(PlaylistInfo(id, if title == "" then PLAYLIST_TITLE_PREFIX + id else title, uploader, |videos|, videos))
  }

  /** Each video stems from one line: its index is that line's number plus one, and it is selected. */
  lemma {:induction false} VideosFromLines(lines: seq<Option<Json>>)
    ensures forall k :: 0 <= k < |VideosOf(lines)| ==>
              var v := VideosOf(lines)[k];
              lines[v.index - 1].Some? && VideoOf(lines[v.index - 1].value, v.index - 1) == Some(v)
  {
    VideosByFromLines(lines, VideoOf);
  }

  lemma {:induction false} VideosByFromLines(lines: seq<Option<Json>>, of: (Json, nat) -> Option<PlaylistVideo>)
    requires Numbering(of)
    ensures forall k :: 0 <= k < |VideosBy(lines, of)| ==>
              var v := VideosBy(lines, of)[k];
              1 <= v.index <= |lines| && lines[v.index - 1].Some? && of(lines[v.index - 1].value, v.index - 1) == Some(v)
  {
    if lines != [] {
      var n := |lines| - 1;
      VideosByFromLines(lines[..n], of);
      VideosByIndexed(lines[..n], of);
      var front := VideosBy(lines[..n], of);
      forall k | 0 <= k < |front| ensures lines[front[k].index - 1] == lines[..n][front[k].index - 1] {
        assert front[k] in front;
      }
    }
  }

  /** The videos keep the order of their lines. */
  lemma {:induction false} VideosInLineOrder(lines: seq<Option<Json>>)
    ensures forall a, b :: 0 <= a < b < |VideosOf(lines)| ==> VideosOf(lines)[a].index < VideosOf(lines)[b].index
  {
    VideosByInLineOrder(lines, VideoOf);
  }

  lemma {:induction false} VideosByInLineOrder(lines: seq<Option<Json>>, of: (Json, nat) -> Option<PlaylistVideo>)
    requires Numbering(of)
    ensures forall a, b :: 0 <= a < b < |VideosBy(lines, of)| ==> VideosBy(lines, of)[a].index < VideosBy(lines, of)[b].index
  {
    if lines != [] {
      var n := |lines| - 1;
      VideosByInLineOrder(lines[..n], of);
      VideosByIndexed(lines[..n], of);
      var front := VideosBy(lines[..n], of);
      forall k | 0 <= k < |front| ensures front[k].index <= n {
        assert front[k] in front;
      }
    }
  }

  /**
   * `fetch_playlist_info`: a URL that is no playlist URL is refused before the tool runs;
   * then a start failure is an I/O error, a failed run carries its stderr, and a listing
   * becomes the playlist `InfoOf` describes.
   */
  method FetchPlaylistInfo(url: string, run: ListingRun) returns (invoked: bool, r: Result<PlaylistInfo, YtdlError>)
    ensures invoked <==> IsPlaylistUrl(url)
    ensures !IsPlaylistUrl(url) ==> r == Err(Other(NOT_A_PLAYLIST))
    ensures IsPlaylistUrl(url) && run.spawn.Some? ==> r == Err(Io(run.spawn.value))
    ensures IsPlaylistUrl(url) && run.spawn.None? && !run.success ==> r == Err(YtdlpFailed(run.stderr))
    ensures IsPlaylistUrl(url) && run.spawn.None? && run.success ==> r == InfoOf(run.lines)
  {
    if !IsPlaylistUrl(url) {
      return false, Err(Other(NOT_A_PLAYLIST));
    }
    invoked := true;
    if run.spawn.Some? {
      return invoked, Err(Io(run.spawn.value));
    }
    if !run.success {
      return invoked, Err(YtdlpFailed(run.stderr));
    }
    r := ListingInfo(run.lines);
  }

  /** The listing loop of `fetch_playlist_info`: the header from line 0, a video from each line that has one. */
  method ListingInfo(lines: seq<Option<Json>>) returns (r: Result<PlaylistInfo, YtdlError>)
    ensures r == InfoOf(lines)
  {
    var videos: seq<PlaylistVideo> := [];
    var title, id, uploader := "", "", None;
    var index := 0;
    while index < |lines|
      invariant 0 <= index <= |lines|
      invariant videos == VideosOf(lines[..index])
      invariant index > 0 ==> (title, id, uploader) == HeaderOf(lines)
      invariant index == 0 ==> title == "" && id == "" && uploader.None?
    {
      VideosOfSnoc(lines, index);
      if lines[index].Some? {
        var json := lines[index].value;
        if index == 0 {
          var t := StrField(json, "playlist_title");
          if t.Some? {
            title := t.value;
          }
          var i := StrField(json, "playlist_id");
          if i.Some? {
            id := i.value;
          }
          var u := StrField(json, "uploader");
          if u.Some? {
            uploader := u;
          }
        }
        var video := VideoOf(json, index);
        if video.Some? {
          videos := videos + [video.value];
        }
      }
      index := index + 1;
    }
    assert lines[..index] == lines;
    if videos == [] {
      return Err(Other(NO_VIDEOS));
    }
    if title == "" {
      title := PLAYLIST_TITLE_PREFIX + id;
    }
    r := Ok(PlaylistInfo(id, title, uploader, |videos|, videos));
  }

  // ---------------------------------------------------------------- selecting and downloading

  /** The downloader of playlists: the flat downloader and an optional output folder. */
  datatype PlaylistDownloader = PlaylistDownloader(downloader: DL.Downloader, outputFolder: Option<string>)

  function NewPlaylistDownloader(outputDir: string, quality: string): (p: PlaylistDownloader)
    ensures p.downloader == DL.Downloader(outputDir, quality) && p.outputFolder.None?
  {
    PlaylistDownloader(DL.Downloader(outputDir, quality), None)
  }

  /** `with_folder`: records the folder; the downloader, and so every download, is unchanged. */
  function WithFolder(p: PlaylistDownloader, folder: string): (q: PlaylistDownloader)
    ensures q.outputFolder == Some(folder) && q.downloader == p.downloader
  {
    p.(outputFolder := Some(folder))
  }

  /** A video is selected by a range exactly when its index lies within it. */
  function InRange(v: PlaylistVideo, start: nat, end: nat): PlaylistVideo
  {
    v.(selected := start <= v.index <= end)
  }

  /** The videos a range selects from, as `download_range` marks them. */
  method SelectRange(videos: seq<PlaylistVideo>, start: nat, end: nat) returns (marked: seq<PlaylistVideo>)
    ensures |marked| == |videos|
    ensures forall k :: 0 <= k < |videos| ==> marked[k] == InRange(videos[k], start, end)
  {
    marked := videos;
    var k := 0;
    while k < |marked|
      invariant 0 <= k <= |marked| && |marked| == |videos|
      invariant forall m :: 0 <= m < k ==> marked[m] == InRange(videos[m], start, end)
      invariant forall m :: k <= m < |marked| ==> marked[m] == videos[m]
    {
      marked := marked[k := marked[k].(selected := marked[k].index >= start && marked[k].index <= end)];
      k := k + 1;
    }
  }

  /** The selected videos, in order. */
  function Selected(videos: seq<PlaylistVideo>): seq<PlaylistVideo>
  {
    if videos == [] then []
    else Selected(videos[..|videos| - 1]) + (if videos[|videos| - 1].selected then [videos[|videos| - 1]] else [])
  }

  /** The selected videos are those of `videos` marked selected, no more and no fewer. */
  lemma {:induction false} SelectedMembers(videos: seq<PlaylistVideo>)
    ensures forall v :: v in Selected(videos) ==> v in videos && v.selected
    ensures forall v :: v in videos && v.selected ==> v in Selected(videos)
  {
    if videos != [] {
      var n := |videos| - 1;
      var front := videos[..n];
      var last := if videos[n].selected then [videos[n]] else [];
      SelectedMembers(front);
      assert Selected(videos) == Selected(front) + last;
      assert videos == front + [videos[n]];
      forall v | v in Selected(videos) ensures v in videos && v.selected {
        if v in Selected(front) {
          assert v in front;
        } else {
          assert v in last;
        }
      }
      forall v | v in videos && v.selected ensures v in Selected(videos) {
        if v in front {
          assert v in Selected(front);
        } else {
          assert v == videos[n];
        }
      }
    }
  }

  /** The paths the successful downloads of `videos` return, in order; failures contribute none. */
  function SuccessPaths(d: DL.Downloader, videos: seq<PlaylistVideo>, runFor: nat -> ToolRun): (paths: seq<string>)
    ensures |paths| <= |videos|
    ensures forall p :: p in paths ==> p == d.outputDir
  {
    if videos == [] then []
    else
      var n := |videos| - 1;
      var outcome := FlatOutcome(d, runFor(videos[n].index));
      SuccessPaths(d, videos[..n], runFor) + (if outcome.Ok? then [outcome.value] else [])
  }

  lemma {:induction false} SuccessPathsSnoc(d: DL.Downloader, videos: seq<PlaylistVideo>, k: nat, runFor: nat -> ToolRun)
    requires k < |videos|
    ensures SuccessPaths(d, videos[..k + 1], runFor) ==
            SuccessPaths(d, videos[..k], runFor)
            + (if FlatOutcome(d, runFor(videos[k].index)).Ok? then [FlatOutcome(d, runFor(videos[k].index)).value] else [])
  {
    assert videos[..k + 1][..k] == videos[..k];
  }

  /**
   * `download_playlist`: nothing selected is an error; otherwise each selected video is
   * downloaded in order, a failure not stopping the rest, and the successes' paths returned.
   */
  method DownloadPlaylist(p: PlaylistDownloader, info: PlaylistInfo, audioOnly: bool, runFor: nat -> ToolRun)
    returns (r: Result<seq<string>, YtdlError>)
    ensures Selected(info.videos) == [] ==> r == Err(Other(NOTHING_SELECTED))
    ensures Selected(info.videos) != [] ==> r == Ok(SuccessPaths(p.downloader, Selected(info.videos), runFor))
  {
    var selected := SelectedLoop(info.videos);
    if selected == [] {
      return Err(Other(NOTHING_SELECTED));
    }
    var paths: seq<string> := [];
    var k := 0;
    while k < |selected|
      invariant 0 <= k <= |selected|
      invariant paths == SuccessPaths(p.downloader, selected[..k], runFor)
    {
      SuccessPathsSnoc(p.downloader, selected, k, runFor);
      var video := selected[k];
      var invokedArgs, result := FlatDownloader.DownloadWithResume(p.downloader, video.url, audioOnly, false, runFor(video.index));
      if result.Ok? {
        paths := paths + [result.value];
      }
      k := k + 1;
    }
    assert selected[..k] == selected;
    r := Ok(paths);
  }

  /** The `filter(|v| v.selected)` step, collected into a vector. */
  method SelectedLoop(videos: seq<PlaylistVideo>) returns (selected: seq<PlaylistVideo>)
    ensures selected == Selected(videos)
  {
    selected := [];
    var k := 0;
    while k < |videos|
      invariant 0 <= k <= |videos|
      invariant selected == Selected(videos[..k])
    {
      assert videos[..k + 1][..k] == videos[..k];
      if videos[k].selected {
        selected := selected + [videos[k]];
      }
      k := k + 1;
    }
    assert videos[..k] == videos;
  }

  /**
   * `download_range`: the playlist is fetched, its videos marked selected exactly within
   * [start, end], and the selected ones downloaded.
   */
  method DownloadRange(p: PlaylistDownloader, url: string, start: nat, end: nat, audioOnly: bool, run: ListingRun, runFor: nat -> ToolRun)
    returns (r: Result<seq<string>, YtdlError>)
    ensures r == RangeOutcome(p, url, start, end, run, runFor)
  {
    var invoked, fetched := FetchPlaylistInfo(url, run);
    if fetched.Err? {
      return Err(fetched.error);
    }
    var info := fetched.value;
    var marked := SelectRange(info.videos, start, end);
    assert marked == MarkRange(info.videos, start, end);
    r := DownloadPlaylist(p, info.(videos := marked), audioOnly, runFor);
  }

  /** The range marking as a function, for the specifications. */
  function MarkRange(videos: seq<PlaylistVideo>, start: nat, end: nat): (r: seq<PlaylistVideo>)
    ensures |r| == |videos| && forall k :: 0 <= k < |videos| ==> r[k] == InRange(videos[k], start, end)
  {
    seq(|videos|, k requires 0 <= k < |videos| => InRange(videos[k], start, end))
  }

  /** What fetching a listing yields as a result: the fetch's outcome for a playlist URL, else the refusal. */
  function FetchOutcome(url: string, run: ListingRun): (r: Result<PlaylistInfo, YtdlError>)
  {
    if !IsPlaylistUrl(url) then Err(Other(NOT_A_PLAYLIST))
    else if run.spawn.Some? then Err(Io(run.spawn.value))
    else if !run.success then Err(YtdlpFailed(run.stderr))
    else InfoOf(run.lines)
  }

  /** A range download's result: the fetch's error, or the download of the videos within the range. */
  function RangeOutcome(p: PlaylistDownloader, url: string, start: nat, end: nat, run: ListingRun, runFor: nat -> ToolRun): Result<seq<string>, YtdlError>
  {
    match FetchOutcome(url, run)
    case Err(e) => Err(e)
    case Ok(info) =>
      var selected := Selected(MarkRange(info.videos, start, end));
      if selected == [] then Err(Other(NOTHING_SELECTED)) else Ok(SuccessPaths(p.downloader, selected, runFor))
  }

  /** The videos a range selects are exactly the fetched ones with an index in [start, end], in order. */
  lemma {:induction false} RangeSelectsIndices(videos: seq<PlaylistVideo>, start: nat, end: nat)
    ensures forall v :: v in Selected(MarkRange(videos, start, end)) ==> start <= v.index <= end
    ensures forall k :: 0 <= k < |videos| && start <= videos[k].index <= end ==> InRange(videos[k], start, end) in Selected(MarkRange(videos, start, end))
  {
    var m := MarkRange(videos, start, end);
    SelectedMembers(m);
    forall k | 0 <= k < |videos| && start <= videos[k].index <= end
      ensures InRange(videos[k], start, end) in Selected(m)
    {
      assert m[k] in m;
    }
    forall v | v in Selected(m) ensures start <= v.index <= end {
      var k :| 0 <= k < |m| && m[k] == v;
    }
  }
}
