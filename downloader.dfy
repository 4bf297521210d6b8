/**
 * The yt-dlp driver of the layered tree: decoding the tool's JSON description of a video,
 * building the argument vector of a download, interpreting the exit status, and picking the
 * downloaded file out of a listing of the output directory.
 *
 * Running the tool is outside the model. What a run delivered is an input: whether the
 * output directory could be created, whether the process could be spawned and waited for,
 * its exit status, its stdout lines and the directory listing read afterwards. A listing
 * holds the entries `read_dir` yielded without error, in the order it yielded them.
 */
module Downloader {
  import opened Wrappers
  import opened Text
  import opened Shared
  import opened Sequences
  import opened ProgressParser
  import TuiApp

  // ---------------------------------------------------------------- JSON values

  /** A `serde_json::Value`; an integer literal is a `JNumber`, any other number a `JFloat`. */
  datatype Json =
    | JNull
    | JBool(b: bool)
    | JNumber(n: int)
    | JFloat(f: real)
    | JString(s: string)
    | JArray(items: seq<Json>)
    | JObject(fields: map<string, Json>)

  /** Indexing by a key: the member, or null when the value is no object or lacks the key. */
  function Field(v: Json, key: string): Json
  {
    if v.JObject? && key in v.fields then v.fields[key] else JNull
  }

  function AsStr(v: Json): Option<string>
  {
    if v.JString? then Some(v.s) else None
  }

  /** `as_u64`: an integer that fits in 64 unsigned bits. */
  function AsU64(v: Json): (r: Option<nat>)
    ensures r.Some? <==> v.JNumber? && 0 <= v.n <= U64_MAX
    ensures r.Some? ==> r.value == v.n
  {
    if v.JNumber? && 0 <= v.n <= U64_MAX then Some(v.n as nat) else None
  }

  // ---------------------------------------------------------------- video metadata

  datatype Format = Format(
    formatId: string,
    ext: string,
    resolution: Option<string>,
    fps: Option<nat>,
    filesize: Option<nat>,
    vcodec: Option<string>,
    acodec: Option<string>)

  datatype VideoMetadata = VideoMetadata(
    id: string,
    title: string,
    uploader: string,
    duration: Option<nat>,
    viewCount: Option<nat>,
    uploadDate: Option<string>,
    description: Option<string>,
    thumbnail: Option<string>,
    formats: seq<Format>)

  /** `v as u32` keeps the low 32 bits. */
  const U32_MODULUS: nat := 0x1_0000_0000

  const UNKNOWN_ID: string := "unknown"
  const UNKNOWN_TITLE: string := "Unknown Title"
  const UNKNOWN_UPLOADER: string := "Unknown"

  /** A format entry is kept only when its id and its extension are both strings. */
  predicate IsCompleteFormat(f: Json)
  {
    AsStr(Field(f, "format_id")).Some? && AsStr(Field(f, "ext")).Some?
  }

  /** The `filter_map` closure over one entry of the `formats` array. */
  function DecodeFormat(f: Json): (r: Option<Format>)
    ensures r.Some? <==> IsCompleteFormat(f)
    ensures r.Some? ==> r.value.formatId == AsStr(Field(f, "format_id")).value && r.value.ext == AsStr(Field(f, "ext")).value
    ensures r.Some? ==> r.value.resolution == AsStr(Field(f, "resolution")) && r.value.vcodec == AsStr(Field(f, "vcodec"))
    ensures r.Some? ==> r.value.acodec == AsStr(Field(f, "acodec")) && r.value.filesize == AsU64(Field(f, "filesize"))
    ensures r.Some? ==> (r.value.fps.Some? <==> AsU64(Field(f, "fps")).Some?)
    ensures r.Some? && r.value.fps.Some? ==> r.value.fps.value < U32_MODULUS && r.value.fps.value == AsU64(Field(f, "fps")).value % U32_MODULUS
  {
    match (AsStr(Field(f, "format_id")), AsStr(Field(f, "ext")))
    case (Some(id), Some(ext)) =>
      var fps := AsU64(Field(f, "fps"));
      Some(Format(
        id, ext,
        AsStr(Field(f, "resolution")),
        if fps.Some? then Some(fps.value % U32_MODULUS) else None,
        AsU64(Field(f, "filesize")),
        AsStr(Field(f, "vcodec")),
        AsStr(Field(f, "acodec"))))
    case _ => None
  }

  /** `filter_map` of `DecodeFormat` over the array, in order. */
  function DecodeFormats(items: seq<Json>): (r: seq<Format>)
    ensures |r| <= |items|
  {
    if items == [] then [] else Decoded(items[0]) + DecodeFormats(items[1..])
  }

  /** The formats one entry contributes: its own, or none. */
  function Decoded(f: Json): seq<Format>
  {
    var r := DecodeFormat(f);
    if r.Some? then [r.value] else []
  }

  /** Decoding works entry by entry: the formats of two arrays laid end to end. */
  lemma {:induction false} DecodeFormatsAppend(a: seq<Json>, b: seq<Json>)
    ensures DecodeFormats(a + b) == DecodeFormats(a) + DecodeFormats(b)
  {
    if a == [] {
      assert a + b == b;
    } else {
      var h := Decoded(a[0]);
      assert (a + b)[0] == a[0];
      assert (a + b)[1..] == a[1..] + b;
      calc {
        DecodeFormats(a + b);
        h + DecodeFormats(a[1..] + b);
        { DecodeFormatsAppend(a[1..], b); }
        h + (DecodeFormats(a[1..]) + DecodeFormats(b));
        (h + DecodeFormats(a[1..])) + DecodeFormats(b);
      }
    }
  }

  /** One entry yields its format when it is complete and nothing otherwise. */
  lemma {:induction false} DecodeFormatsOne(f: Json)
    ensures IsCompleteFormat(f) ==> DecodeFormats([f]) == [DecodeFormat(f).value]
    ensures !IsCompleteFormat(f) ==> DecodeFormats([f]) == []
  {
    assert [f][1..] == [];
  }

  /** Exactly the complete entries survive. */
  lemma {:induction false} DecodeFormatsCount(items: seq<Json>)
    ensures |DecodeFormats(items)| == |Filter(items, IsCompleteFormat)|
  {
    if items != [] {
      DecodeFormatsCount(items[1..]);
    }
  }

  /**
   * The record built from the tool's JSON: missing or non-string `id`, `title` and `uploader`
   * fall back to "unknown", "Unknown Title" and "Unknown"; numbers that are not unsigned
   * 64-bit integers are absent; without a `formats` array there are no formats.
   */
  function MetadataFromJson(v: Json): (m: VideoMetadata)
    ensures AsStr(Field(v, "id")).None? ==> m.id == UNKNOWN_ID
    ensures AsStr(Field(v, "id")).Some? ==> m.id == AsStr(Field(v, "id")).value
    ensures AsStr(Field(v, "title")).None? ==> m.title == UNKNOWN_TITLE
    ensures AsStr(Field(v, "title")).Some? ==> m.title == AsStr(Field(v, "title")).value
    ensures AsStr(Field(v, "uploader")).None? ==> m.uploader == UNKNOWN_UPLOADER
    ensures AsStr(Field(v, "uploader")).Some? ==> m.uploader == AsStr(Field(v, "uploader")).value
    ensures m.duration == AsU64(Field(v, "duration")) && m.viewCount == AsU64(Field(v, "view_count"))
    ensures m.uploadDate == AsStr(Field(v, "upload_date")) && m.description == AsStr(Field(v, "description"))
    ensures m.thumbnail == AsStr(Field(v, "thumbnail"))
    ensures !Field(v, "formats").JArray? ==> m.formats == []
    ensures Field(v, "formats").JArray? ==> m.formats == DecodeFormats(Field(v, "formats").items)
  {
    VideoMetadata(
      AsStr(Field(v, "id")).GetOr(UNKNOWN_ID),
      AsStr(Field(v, "title")).GetOr(UNKNOWN_TITLE),
      AsStr(Field(v, "uploader")).GetOr(UNKNOWN_UPLOADER),
      AsU64(Field(v, "duration")),
      AsU64(Field(v, "view_count")),
      AsStr(Field(v, "upload_date")),
      AsStr(Field(v, "description")),
      AsStr(Field(v, "thumbnail")),
      var fs := Field(v, "formats"); if fs.JArray? then DecodeFormats(fs.items) else [])
  }

  /** What a finished `Command::output` call delivered. */
  datatype CommandOutput = CommandOutput(success: bool, stdout: string, stderr: string)

  /** The tool's arguments for describing one video as JSON. */
  function FetchArgs(url: string): (args: seq<string>)
    ensures |args| == 3 && args[|args| - 1] == url
  {
    ["--dump-json", "--no-playlist", url]
  }

  /**
   * `fetch_video_info`, on the outcome of running the tool with `FetchArgs(url)` and with
   * `parse` standing for the JSON parser (its error is the parser's message).
   */
  function FetchVideoInfo(output: Result<CommandOutput, string>, parse: string -> Result<Json, string>): (r: Result<VideoMetadata, YtdlError>)
    ensures output.Err? ==> r == Err(YtdlpFailed("Failed to execute yt-dlp: " + output.error))
    ensures output.Ok? && !output.value.success ==> r == Err(YtdlpFailed(output.value.stderr))
    ensures output.Ok? && output.value.success && parse(output.value.stdout).Err? ==>
              r == Err(JsonParse(parse(output.value.stdout).error))
    ensures output.Ok? && output.value.success && parse(output.value.stdout).Ok? ==>
              r == Ok(MetadataFromJson(parse(output.value.stdout).value))
    ensures r.Ok? <==> output.Ok? && output.value.success && parse(output.value.stdout).Ok?
  {
    match output
    case Err(e) => Err(YtdlpFailed("Failed to execute yt-dlp: " + e))
    case Ok(out) =>
      if !out.success then Err(YtdlpFailed(out.stderr))
      else match parse(out.stdout)
        case Err(e) => Err(JsonParse(e))
        case Ok(v) => Ok(MetadataFromJson(v))
  }

  // ---------------------------------------------------------------- formats shown to the user

  /** A format with a video stream: the codec is named and is not "none". */
  predicate IsVideoFormat(f: Format)
  {
    f.vcodec.Some? && f.vcodec.value != "none"
  }

  /** The height of a "WxH" resolution: the piece after the first 'x', read as a `u32`, else 0. */
  function Height(f: Format): (h: nat)
    ensures h <= U32_MAX
  {
    if f.resolution.None? then 0
    else
      var pieces := Split(f.resolution.value, 'x');
      if |pieces| >= 2 && ParseU32(pieces[1]).Some? then ParseU32(pieces[1]).value else 0
  }

  function HeightKey(f: Format): int
  {
    Height(f)
  }

  /** The formats with a video stream, tallest first (a stable sort), at most `n` of them. */
  function TallestVideoFormats(fs: seq<Format>, n: nat): (r: seq<Format>)
    ensures |r| <= n
  {
    Take(SortDesc(Filter(fs, IsVideoFormat), HeightKey), n)
  }

  /**
   * The selected formats all have a video stream, run tallest first, and no video format
   * left off is taller than one selected.
   */
  lemma {:induction false} TallestVideoFormatsShape(fs: seq<Format>, n: nat)
    ensures var l := TallestVideoFormats(fs, n);
            forall i :: 0 <= i < |l| ==> IsVideoFormat(l[i])
    ensures var l := TallestVideoFormats(fs, n);
            forall i, j :: 0 <= i < j < |l| ==> Height(l[i]) >= Height(l[j])
    ensures var l := TallestVideoFormats(fs, n);
            forall i, x :: 0 <= i < |l| && x in multiset(Filter(fs, IsVideoFormat)) - multiset(l) ==> Height(x) <= Height(l[i])
  {
    var v := Filter(fs, IsVideoFormat);
    var sorted := SortDesc(v, HeightKey);
    TallestAreVideo(v, sorted, n);
    TallestInOrder(sorted, n);
    TallestLeaveShorter(v, sorted, n);
  }

  lemma {:induction false} TallestLeaveShorter(v: seq<Format>, sorted: seq<Format>, n: nat)
    requires SortedDesc(sorted, HeightKey) && multiset(sorted) == multiset(v)
    ensures var l := Take(sorted, n);
            forall i, x :: 0 <= i < |l| && x in multiset(v) - multiset(l) ==> Height(x) <= Height(l[i])
  {
    var l := Take(sorted, n);
    TakeKeepsLargest(sorted, n, HeightKey);
    forall i, x | 0 <= i < |l| && x in multiset(v) - multiset(l) ensures Height(x) <= Height(l[i]) {
      assert x in multiset(sorted) - multiset(l);
      assert HeightKey(x) <= HeightKey(l[i]);
    }
  }

  lemma {:induction false} TallestAreVideo(v: seq<Format>, sorted: seq<Format>, n: nat)
    requires forall i :: 0 <= i < |v| ==> IsVideoFormat(v[i])
    requires multiset(sorted) == multiset(v)
    ensures forall i :: 0 <= i < |Take(sorted, n)| ==> IsVideoFormat(Take(sorted, n)[i])
  {
    var l := Take(sorted, n);
    forall i | 0 <= i < |l| ensures IsVideoFormat(l[i]) {
      assert l[i] == sorted[i];
      assert sorted[i] in multiset(v);
      var m :| 0 <= m < |v| && v[m] == sorted[i];
    }
  }

  lemma {:induction false} TallestInOrder(sorted: seq<Format>, n: nat)
    requires SortedDesc(sorted, HeightKey)
    ensures forall i, j :: 0 <= i < j < |Take(sorted, n)| ==> Height(Take(sorted, n)[i]) >= Height(Take(sorted, n)[j])
  {
    var l := Take(sorted, n);
    TakeKeepsOrder(sorted, n, HeightKey);
    forall i, j | 0 <= i < j < |l| ensures Height(l[i]) >= Height(l[j]) {
      assert HeightKey(l[i]) >= HeightKey(l[j]);
    }
  }

  /** A resolution written as width 'x' height reports that height. */
  lemma {:induction false} HeightOfResolution(f: Format, w: nat, h: nat)
    requires h <= U32_MAX && f.resolution == Some(NatToString(w) + "x" + NatToString(h))
    ensures Height(f) == h
  {
    var a, b := NatToString(w), NatToString(h);
    assert 'x' !in a && 'x' !in b by {
      assert !IsDigit('x');
    }
    SplitLast(a, b, 'x');
    assert a + "x" + b == a + ['x'] + b;
    ParseUnsignedRoundTrip(h, U32_MAX);
  }

  /** A resolution without an 'x', such as "audio only", has height 0. */
  lemma {:induction false} HeightWithoutSeparator(f: Format)
    requires f.resolution.Some? && 'x' !in f.resolution.value
    ensures Height(f) == 0
  {
  }

  // ---------------------------------------------------------------- display record

  /** The duration as minutes (unbounded), ':' and two-digit seconds; "Unknown" when absent. */
  function DisplayDuration(duration: Option<nat>): string
  {
    match duration
    case None => "Unknown"
    case Some(d) => NatToString(d / 60) + ":" + Pad2(d % 60)
  }

  /** The view count with its digits grouped in threes. */
  function DisplayViews(views: nat): string
  {
    GroupThousands(NatToString(views))
  }

  /** `to_display_info`: the record the interface shows for a fetched video. */
  function DisplayInfo(m: VideoMetadata): (v: TuiApp.VideoInfo)
    ensures v.title == m.title && v.uploader == m.uploader && v.uploadDate == m.uploadDate
    ensures v.duration == DisplayDuration(m.duration)
    ensures m.viewCount.None? <==> v.viewCount.None?
    ensures m.viewCount.Some? ==> v.viewCount == Some(DisplayViews(m.viewCount.value))
  {
    TuiApp.VideoInfo(
      m.title, m.uploader, DisplayDuration(m.duration),
      if m.viewCount.Some? then Some(DisplayViews(m.viewCount.value)) else None,
      m.uploadDate)
  }

  /**
   * The displayed duration is two ':'-separated fields, minutes and seconds, the seconds
   * field is two digits below 60, and the fields give back the duration.
   */
  lemma {:induction false} DisplayDurationFields(d: nat)
    ensures var p := Split(DisplayDuration(Some(d)), ':');
            |p| == 2 && AllDigits(p[0]) && AllDigits(p[1]) && |p[1]| == 2
            && DigitsValue(p[1]) < 60 && 60 * DigitsValue(p[0]) + DigitsValue(p[1]) == d
    ensures DisplayDuration(None) == "Unknown"
  {
    var m, s := NatToString(d / 60), Pad2(d % 60);
    SplitTwoDigitFields(m, s);
    NatToStringRoundTrip(d / 60);
    Pad2RoundTrip(d % 60);
  }

  /**
   * The displayed view count: removing its commas gives the decimal digits of the count;
   * the first group has one to three digits and every later group three.
   */
  lemma {:induction false} DisplayViewsGrouping(views: nat)
    ensures Without(DisplayViews(views), ',') == NatToString(views)
    ensures DigitsValue(Without(DisplayViews(views), ',')) == views
    ensures var p := Split(DisplayViews(views), ',');
            1 <= |p[0]| <= 3 && forall k :: 1 <= k < |p| ==> |p[k]| == 3
  {
    var s := NatToString(views);
    assert ',' !in s by {
      assert !IsDigit(',');
    }
    GroupThousandsRemovesCommas(s);
    GroupThousandsPieces(s);
    NatToStringRoundTrip(views);
  }

  lemma DisplayViewsExample()
    ensures DisplayViews(1234567) == "1,234,567"
    ensures DisplayViews(999) == "999"
  {
    SevenDigits();
    var s := NatToString(1234567);
    assert s[..4] == "1234" && s[4..] == "567";
    assert "1234"[..1] == "1" && "1234"[1..] == "234";
    assert GroupThousands("1234") == "1,234";
    assert NatToString(9) == "9" && NatToString(99) == "99" && NatToString(999) == "999";
  }

  lemma FourDigits()
    ensures NatToString(1234) == "1234"
  {
    assert NatToString(1) == "1";
    assert NatToString(12) == "12";
    assert NatToString(123) == "123";
  }

  lemma SevenDigits()
    ensures NatToString(1234567) == "1234567"
  {
    FourDigits();
    assert NatToString(12345) == "12345";
    assert NatToString(123456) == "123456";
  }

  // ---------------------------------------------------------------- argument vector

  datatype Downloader = Downloader(outputDir: string, quality: string)

  /** The output template, relative to the output directory. */
  const OUTPUT_TEMPLATE: string := "/%(title)s.%(ext)s"

  /** The format selector for a video download at the given quality. */
  function QualitySelector(quality: string): string
  {
    if quality == "best" then "bestvideo+bestaudio/best" else "bestvideo[height<=" + quality + "]+bestaudio/best"
  }

  /**
   * The argument vector: output template, progress on new lines, `--continue` when
   * resuming, then either MP3 extraction or a format selector, and the URL last.
   */
  function ToolArgs(outputDir: string, quality: string, url: string, audioOnly: bool, resume: bool): seq<string>
  {
    ["-o", outputDir + OUTPUT_TEMPLATE, "--progress", "--newline"]
    + (if resume then ["--continue"] else [])
    + (if audioOnly then ["-x", "--audio-format", "mp3"] else ["-f", QualitySelector(quality)])
    + [url]
  }

  /** Builds the vector by pushes, as the downloads do. */
  method BuildArgs(d: Downloader, url: string, audioOnly: bool, resume: bool) returns (args: seq<string>)
    ensures args == ToolArgs(d.outputDir, d.quality, url, audioOnly, resume)
  {
    args := ["-o", d.outputDir + OUTPUT_TEMPLATE, "--progress", "--newline"];
    if resume {
      args := args + ["--continue"];
    }
    if audioOnly {
      args := args + ["-x", "--audio-format", "mp3"];
    } else {
      args := args + ["-f"];
      args := args + [QualitySelector(d.quality)];
    }
    args := args + [url];
  }

  /**
   * The shape of the vector: the four fixed leading arguments, the URL last, `--continue`
   * among the flags exactly when resuming, and for audio the extraction flags with no
   * format selector, otherwise "-f" and the selector just before the URL.
   */
  lemma {:induction false} ToolArgsShape(outputDir: string, quality: string, url: string, audioOnly: bool, resume: bool)
    ensures var args := ToolArgs(outputDir, quality, url, audioOnly, resume);
            |args| == 4 + (if resume then 1 else 0) + (if audioOnly then 3 else 2) + 1
            && args[..4] == ["-o", outputDir + OUTPUT_TEMPLATE, "--progress", "--newline"]
            && args[|args| - 1] == url
            && ("--continue" in args[..|args| - 1] <==> resume)
            && (audioOnly ==> "-f" !in args[..|args| - 1] && args[|args| - 4..|args| - 1] == ["-x", "--audio-format", "mp3"])
            && (!audioOnly ==> args[|args| - 3] == "-f" && args[|args| - 2] == QualitySelector(quality))
  {
    var args := ToolArgs(outputDir, quality, url, audioOnly, resume);
    var flags := args[..|args| - 1];
    var template := outputDir + OUTPUT_TEMPLATE;
    assert template[|template| - 1] == 's';
    assert "--continue"[|"--continue"| - 1] == 'e';
    assert template != "--continue" && template != "-f";
    var sel := QualitySelector(quality);
    assert sel[0] == 'b';
    assert sel != "--continue";
    if resume {
      assert flags[4] == "--continue";
    }
  }

  /** The progress download never resumes: its vector is the non-resuming one and has no `--continue` flag. */
  lemma {:induction false} ProgressArgsNeverResume(outputDir: string, quality: string, url: string, audioOnly: bool)
    ensures "--continue" !in ToolArgs(outputDir, quality, url, audioOnly, false)[..|ToolArgs(outputDir, quality, url, audioOnly, false)| - 1]
  {
    ToolArgsShape(outputDir, quality, url, audioOnly, false);
  }

  // ---------------------------------------------------------------- exit status

  /** How the process ended: with an exit code, or by a signal (which has no code). */
  datatype ExitStatus = Exited(code: int) | Signalled

  predicate Succeeded(s: ExitStatus) { s == Exited(0) }

  /** The code reported for a failure: the exit code, or -1 when there is none. */
  function ReportedCode(s: ExitStatus): int
  {
    if s.Exited? then s.code else -1
  }

  const EXIT_MESSAGE_PREFIX: string := "yt-dlp exited with code "

  /** The error for a process that did not succeed, or none. */
  function ExitError(s: ExitStatus): (r: Option<YtdlError>)
    ensures r.None? <==> Succeeded(s)
    ensures r.Some? ==> r.value.YtdlpFailed? && StartsWith(r.value.msg, EXIT_MESSAGE_PREFIX)
  {
    if Succeeded(s) then None else Some(YtdlpFailed(EXIT_MESSAGE_PREFIX + IntToString(ReportedCode(s))))
  }

  /** The failure message carries the exit code (or -1): it can be read back from the text. */
  lemma {:induction false} ExitErrorCarriesCode(s: ExitStatus)
    requires !Succeeded(s)
    ensures ParseInt(ExitError(s).value.msg[|EXIT_MESSAGE_PREFIX|..]) == Some(ReportedCode(s))
    ensures s.Signalled? ==> ExitError(s).value.msg == "yt-dlp exited with code -1"
  {
    var m := ExitError(s).value.msg;
    assert m[|EXIT_MESSAGE_PREFIX|..] == IntToString(ReportedCode(s));
    IntToStringRoundTrip(ReportedCode(s));
    if s.Signalled? {
      assert IntToString(-1) == "-" + NatToString(1);
    }
  }

  // ---------------------------------------------------------------- directory listing

  /** An entry of the output directory; `modified` is absent when its metadata cannot be read. */
  datatype DirEntry = DirEntry(name: string, isDir: bool, modified: Option<int>)

  /** `Path::join` of an entry name onto a directory. */
  function JoinPath(dir: string, name: string): string
  {
    if dir == [] then name else if EndsWith(dir, "/") then dir + name else dir + "/" + name
  }

  /**
   * `Path::extension` of a file name: the text after the last '.', except that ".." and a
   * name with no '.' other than a leading one have none.
   */
  function Extension(name: string): (r: Option<string>)
    ensures r.Some? ==> exists i :: 0 < i < |name| && name[i] == '.' && r.value == name[i + 1..]
    ensures r.Some? ==> '.' !in r.value
    ensures '.' !in name ==> r.None?
  {
    if name == ".." then None
    else match LastIndexOf(name, '.')
      case None => None
      case Some(i) =>
        if i == 0 then None
        else
          Some(name[i + 1..])
  }

  lemma ExtensionExamples()
    ensures Extension("video.mp4.part") == Some("part")
    ensures Extension("video.mp4") == Some("mp4")
    ensures Extension(".part") == None
    ensures Extension("README") == None
  {
    assert "video.mp4.part"[9] == '.';
    assert "video.mp4"[5] == '.';
    assert ".part"[0] == '.';
    assert forall k :: 0 < k < |".part"| ==> ".part"[k] != '.';
    assert forall k :: 0 <= k < |"README"| ==> "README"[k] != '.';
  }

  predicate IsPartial(e: DirEntry)
  {
    Extension(e.name) == Some("part")
  }

  /** An entry `find_newest_file` considers: no directory, no ".part" file, a readable time. */
  predicate IsCandidate(e: DirEntry)
  {
    !e.isDir && !IsPartial(e) && e.modified.Some?
  }

  function Mtime(e: DirEntry): int
  {
    match e.modified
    case None => 0
    case Some(t) => t
  }

  /**
   * The position of the newest candidate: a strictly later time replaces the one kept so
   * far, so the first of several equally new candidates wins.
   */
  function Newest(entries: seq<DirEntry>): (r: Option<nat>)
    ensures r.None? <==> forall j :: 0 <= j < |entries| ==> !IsCandidate(entries[j])
    ensures r.Some? ==> r.value < |entries| && IsCandidate(entries[r.value])
    ensures r.Some? ==> forall j :: 0 <= j < |entries| && IsCandidate(entries[j]) ==> Mtime(entries[j]) <= Mtime(entries[r.value])
    ensures r.Some? ==> forall j :: 0 <= j < r.value && IsCandidate(entries[j]) ==> Mtime(entries[j]) < Mtime(entries[r.value])
  {
    FirstLatest(entries, IsCandidate, Mtime)
  }

  const NO_FILE_MESSAGE: string := "No downloaded file found in output directory"
  const READ_DIR_PREFIX: string := "Failed to read output directory: "

  /** `find_newest_file`: the path of the newest candidate in the listing of `dir`. */
  method FindNewestFile(dir: string, listing: Result<seq<DirEntry>, string>) returns (r: Result<string, YtdlError>)
    ensures listing.Err? ==> r == Err(Other(READ_DIR_PREFIX + listing.error))
    ensures listing.Ok? && Newest(listing.value).None? ==> r == Err(Other(NO_FILE_MESSAGE))
    ensures listing.Ok? && Newest(listing.value).Some? ==> r == Ok(JoinPath(dir, listing.value[Newest(listing.value).value].name))
  {
    if listing.Err? {
      return Err(Other(READ_DIR_PREFIX + listing.error));
    }
    var entries := listing.value;
    var newest: Option<nat> := None;
    var i := 0;
    while i < |entries|
      invariant 0 <= i <= |entries|
      invariant newest == FirstLatest(entries[..i], IsCandidate, Mtime)
    {
      NewestStep(entries, i, newest);
      var e := entries[i];
      if !e.isDir && !IsPartial(e) && e.modified.Some? {
        if newest.None? || e.modified.value > Mtime(entries[newest.value]) {
          newest := Some(i);
        }
      }
      i := i + 1;
    }
    assert entries[..i] == entries;
    if newest.None? {
      return Err(Other(NO_FILE_MESSAGE));
    }
    return Ok(JoinPath(dir, entries[newest.value].name));
  }

  /** One more entry of the listing, as the loop of `find_newest_file` tests it. */
  lemma {:induction false} NewestStep(entries: seq<DirEntry>, i: nat, newest: Option<nat>)
    requires i < |entries| && newest == FirstLatest(entries[..i], IsCandidate, Mtime)
    ensures var e := entries[i];
            var leads := !e.isDir && !IsPartial(e) && e.modified.Some?
                         && (newest.None? || e.modified.value > Mtime(entries[newest.value]));
            FirstLatest(entries[..i + 1], IsCandidate, Mtime) == if leads then Some(i) else newest
  {
    FirstLatestStep(entries, i, IsCandidate, Mtime);
  }

  /** `check_partial_download`: the first entry with a "part" extension, directories included. */
  method CheckPartialDownload(dir: string, listing: Result<seq<DirEntry>, string>) returns (r: Option<string>)
    ensures listing.Err? ==> r.None?
    ensures listing.Ok? ==> (r.Some? <==> exists j :: 0 <= j < |listing.value| && IsPartial(listing.value[j]))
    ensures listing.Ok? && r.Some? ==>
              (exists i :: 0 <= i < |listing.value| && IsPartial(listing.value[i])
                 && r.value == JoinPath(dir, listing.value[i].name)
                 && forall j :: 0 <= j < i ==> !IsPartial(listing.value[j]))
  {
    if listing.Err? {
      return None;
    }
    var entries := listing.value;
    var i := 0;
    while i < |entries|
      invariant 0 <= i <= |entries|
      invariant forall j :: 0 <= j < i ==> !IsPartial(entries[j])
    {
      if Extension(entries[i].name) == Some("part") {
        return Some(JoinPath(dir, entries[i].name));
      }
      i := i + 1;
    }
    return None;
  }

  // ---------------------------------------------------------------- downloads

  /** What one run of the tool delivered; `createDir` and `spawn` are the errors of those steps, if any. */
  datatype ToolRun = ToolRun(
    createDir: Option<string>,
    spawn: Option<string>,
    stdout: seq<string>,
    wait: Result<ExitStatus, string>,
    listing: Result<seq<DirEntry>, string>)

  /** The run got as far as a finished process. */
  predicate Finished(run: ToolRun)
  {
    run.createDir.None? && run.spawn.None? && run.wait.Ok?
  }

  /** The outcome a download reports, from what the run delivered: the first failing step, else the newest file. */
  function Outcome(dir: string, run: ToolRun): (r: Result<string, YtdlError>)
    ensures r.Ok? <==> Finished(run) && Succeeded(run.wait.value) && run.listing.Ok? && Newest(run.listing.value).Some?
  {
    if run.createDir.Some? then Err(Io(run.createDir.value))
    else if run.spawn.Some? then Err(YtdlpFailed("Failed to spawn yt-dlp: " + run.spawn.value))
    else if run.wait.Err? then Err(YtdlpFailed("Failed to wait for yt-dlp: " + run.wait.error))
    else if ExitError(run.wait.value).Some? then Err(ExitError(run.wait.value).value)
    else if run.listing.Err? then Err(Other(READ_DIR_PREFIX + run.listing.error))
    else match Newest(run.listing.value)
      case None => Err(Other(NO_FILE_MESSAGE))
      case Some(i) => Ok(JoinPath(dir, run.listing.value[i].name))
  }

  /**
   * `download_with_resume` (and `download`, `resume_download`, which fix the flag): creates
   * the output directory, runs the tool with `ToolArgs`, and on success reports the newest
   * file. `invoked` is the argument vector the tool was started with, if it was started.
   */
  method DownloadWithResume(d: Downloader, url: string, audioOnly: bool, continueDownload: bool, run: ToolRun)
    returns (invoked: Option<seq<string>>, r: Result<string, YtdlError>)
    ensures run.createDir.Some? ==> invoked.None? && r == Err(Io(run.createDir.value))
    ensures run.createDir.None? ==> invoked == Some(ToolArgs(d.outputDir, d.quality, url, audioOnly, continueDownload))
    ensures run.createDir.None? && run.spawn.Some? ==> r == Err(YtdlpFailed("Failed to spawn yt-dlp: " + run.spawn.value))
    ensures run.createDir.None? && run.spawn.None? && run.wait.Err? ==> r == Err(YtdlpFailed("Failed to wait for yt-dlp: " + run.wait.error))
    ensures Finished(run) && !Succeeded(run.wait.value) ==> r == Err(ExitError(run.wait.value).value)
    ensures Finished(run) && Succeeded(run.wait.value) && run.listing.Err? ==> r == Err(Other(READ_DIR_PREFIX + run.listing.error))
    ensures r.Ok? <==> Finished(run) && Succeeded(run.wait.value) && run.listing.Ok? && Newest(run.listing.value).Some?
    ensures r.Ok? ==> r.value == JoinPath(d.outputDir, run.listing.value[Newest(run.listing.value).value].name)
    ensures r == Outcome(d.outputDir, run)
  {
    if run.createDir.Some? {
      return None, Err(Io(run.createDir.value));
    }
    var args := BuildArgs(d, url, audioOnly, continueDownload);
    invoked := Some(args);
    if run.spawn.Some? {
      return invoked, Err(YtdlpFailed("Failed to spawn yt-dlp: " + run.spawn.value));
    }
    if run.wait.Err? {
      return invoked, Err(YtdlpFailed("Failed to wait for yt-dlp: " + run.wait.error));
    }
    var failure := ExitError(run.wait.value);
    if failure.Some? {
      return invoked, Err(failure.value);
    }
    r := FindNewestFile(d.outputDir, run.listing);
  }

  /**
   * `download_with_progress`: as `DownloadWithResume` without resuming, and every stdout
   * line that parses as progress is handed to the callback as it is read (`samples`),
   * before the process is waited for.
   */
  method DownloadWithProgress(d: Downloader, url: string, audioOnly: bool, run: ToolRun)
    returns (invoked: Option<seq<string>>, samples: seq<ProgressInfo>, r: Result<string, YtdlError>)
    ensures run.createDir.Some? ==> invoked.None? && samples == [] && r == Err(Io(run.createDir.value))
    ensures run.createDir.None? ==> invoked == Some(ToolArgs(d.outputDir, d.quality, url, audioOnly, false))
    ensures run.createDir.None? && run.spawn.Some? ==> samples == [] && r == Err(YtdlpFailed("Failed to spawn yt-dlp: " + run.spawn.value))
    ensures run.createDir.None? && run.spawn.None? ==> samples == Samples(run.stdout)
    ensures run.createDir.None? && run.spawn.None? && run.wait.Err? ==> r == Err(YtdlpFailed("Failed to wait for yt-dlp: " + run.wait.error))
    ensures Finished(run) && !Succeeded(run.wait.value) ==> r == Err(ExitError(run.wait.value).value)
    ensures Finished(run) && Succeeded(run.wait.value) && run.listing.Err? ==> r == Err(Other(READ_DIR_PREFIX + run.listing.error))
    ensures r.Ok? <==> Finished(run) && Succeeded(run.wait.value) && run.listing.Ok? && Newest(run.listing.value).Some?
    ensures r.Ok? ==> r.value == JoinPath(d.outputDir, run.listing.value[Newest(run.listing.value).value].name)
    ensures r == Outcome(d.outputDir, run)
  {
    samples := [];
    if run.createDir.Some? {
      return None, samples, Err(Io(run.createDir.value));
    }
    var args := BuildArgs(d, url, audioOnly, false);
    invoked := Some(args);
    if run.spawn.Some? {
      return invoked, samples, Err(YtdlpFailed("Failed to spawn yt-dlp: " + run.spawn.value));
    }
    samples := DriveProgress(run.stdout);
    if run.wait.Err? {
      return invoked, samples, Err(YtdlpFailed("Failed to wait for yt-dlp: " + run.wait.error));
    }
    var failure := ExitError(run.wait.value);
    if failure.Some? {
      return invoked, samples, Err(failure.value);
    }
    r := FindNewestFile(d.outputDir, run.listing);
  }
}
