/** URL validation and the two human-readable formatters of the utility module. */
module Utils {
  import opened Wrappers
  import opened Text
  import opened Shared

  // ---------------------------------------------------------------- URL validation

  /** The regex class `[\w-]` that must follow each accepted prefix. */
  predicate IsIdChar(c: char) { IsWordChar(c) || c == '-' }

  /** The input starts with `prefix` and at least one id character follows it. */
  predicate PrefixThenId(url: string, prefix: string)
  {
    StartsWith(url, prefix) && |url| > |prefix| && IsIdChar(url[|prefix|])
  }

  /** `^https?://(www\.)?` + `path` + `[\w-]+`, unanchored at the end. */
  predicate MatchesPattern(url: string, path: string)
  {
    PrefixThenId(url, "http://" + path) || PrefixThenId(url, "https://" + path)
    || PrefixThenId(url, "http://www." + path) || PrefixThenId(url, "https://www." + path)
  }

  /** The host-and-path part of the four accepted URL shapes, in the order they are tried. */
  const YOUTUBE_PATHS: seq<string> := ["youtube.com/watch?v=", "youtu.be/", "youtube.com/playlist?list=", "youtube.com/shorts/"]

  /** Reference definition: one of the four URL shapes. */
  predicate IsYoutubeUrl(url: string)
  {
    MatchesPattern(url, "youtube.com/watch?v=") || MatchesPattern(url, "youtu.be/")
    || MatchesPattern(url, "youtube.com/playlist?list=") || MatchesPattern(url, "youtube.com/shorts/")
  }

  /** Tries the patterns from index `k` on, stopping at the first that matches. */
  function MatchesFrom(url: string, k: nat): (b: bool)
    requires k <= |YOUTUBE_PATHS|
    ensures b <==> exists j :: k <= j < |YOUTUBE_PATHS| && MatchesPattern(url, YOUTUBE_PATHS[j])
    decreases |YOUTUBE_PATHS| - k
  {
    if k == |YOUTUBE_PATHS| then false
    else if MatchesPattern(url, YOUTUBE_PATHS[k]) then true
    else MatchesFrom(url, k + 1)
  }

  /** The message of the error returned for a rejected URL. */
  function InvalidUrlMessage(url: string): (m: string)
    ensures EndsWith(m, "Got: " + url)
  {
    var m := EXPECTED_FORMATS + ("Got: " + url);
    assert m[|m| - |"Got: " + url|..] == "Got: " + url;
    m
  }

  const EXPECTED_FORMATS: string :=
    "Invalid YouTube URL. Expected formats:\n  "
    + "- https://youtube.com/watch?v=VIDEO_ID\n  "
    + "- https://youtu.be/VIDEO_ID\n  "
    + "- https://youtube.com/playlist?list=PLAYLIST_ID\n  "
    + "- https://youtube.com/shorts/VIDEO_ID\n"

  /** Accepts exactly the four URL shapes; any other input is InvalidUrl naming the input. */
  function ValidateYoutubeUrl(url: string): (r: Result<(), YtdlError>)
    ensures r.Ok? <==> IsYoutubeUrl(url)
    ensures r.Err? ==> r.error.InvalidUrl? && EndsWith(r.error.msg, "Got: " + url)
  {
    if MatchesFrom(url, 0) then Ok(()) else Err(InvalidUrl(InvalidUrlMessage(url)))
  }

  /** `url` begins with `prefix` followed by an id character, checked character by character. */
  lemma {:induction false} AcceptedByPrefix(url: string, prefix: string)
    requires |prefix| < |url| && IsIdChar(url[|prefix|])
    requires forall i :: 0 <= i < |prefix| ==> url[i] == prefix[i]
    ensures PrefixThenId(url, prefix)
  {
    assert url[..|prefix|] == prefix;
  }

  /** A URL that differs from `prefix` at position `k` does not start with it. */
  lemma {:induction false} RejectedAt(url: string, prefix: string, k: nat)
    requires k < |prefix| && k < |url| && url[k] != prefix[k]
    ensures !PrefixThenId(url, prefix)
  {
    assert url[..k + 1][k] == url[k];
  }

  /** No pattern matches when the character after the scheme is neither `y` nor `w`. */
  lemma {:induction false} RejectedHost(url: string)
    requires |url| > 8 && url[4] != ':' && url[7] != 'y' && url[7] != 'w' && url[8] != 'y' && url[8] != 'w'
    ensures !IsYoutubeUrl(url)
  {
    forall path | path in YOUTUBE_PATHS
      ensures !MatchesPattern(url, path)
    {
      assert |path| > 0 && (path[0] == 'y');
      RejectedAt(url, "http://" + path, 7);
      RejectedAt(url, "https://" + path, 8);
      RejectedAt(url, "http://www." + path, 7);
      RejectedAt(url, "https://www." + path, 8);
    }
    assert YOUTUBE_PATHS[0] in YOUTUBE_PATHS && YOUTUBE_PATHS[1] in YOUTUBE_PATHS;
    assert YOUTUBE_PATHS[2] in YOUTUBE_PATHS && YOUTUBE_PATHS[3] in YOUTUBE_PATHS;
  }

  /** No pattern matches an input that does not begin with `h`. */
  lemma {:induction false} RejectedScheme(url: string)
    requires url != [] && url[0] != 'h'
    ensures !IsYoutubeUrl(url)
  {
    forall path | path in YOUTUBE_PATHS
      ensures !MatchesPattern(url, path)
    {
      RejectedAt(url, "http://" + path, 0);
      RejectedAt(url, "https://" + path, 0);
      RejectedAt(url, "http://www." + path, 0);
      RejectedAt(url, "https://www." + path, 0);
    }
    assert YOUTUBE_PATHS[0] in YOUTUBE_PATHS && YOUTUBE_PATHS[1] in YOUTUBE_PATHS;
    assert YOUTUBE_PATHS[2] in YOUTUBE_PATHS && YOUTUBE_PATHS[3] in YOUTUBE_PATHS;
  }

  lemma ValidateWatchExamples()
    ensures ValidateYoutubeUrl("https://" + "youtube.com/watch?v=" + "dQw4w9WgXcQ").Ok?
    ensures ValidateYoutubeUrl("https://www." + "youtube.com/watch?v=" + "dQw4w9WgXcQ").Ok?
  {
    AcceptedPieces("https://", "youtube.com/watch?v=", "dQw4w9WgXcQ");
    AcceptedPieces("https://www.", "youtube.com/watch?v=", "dQw4w9WgXcQ");
  }

  lemma ValidateShortLinkExample()
    ensures ValidateYoutubeUrl("https://youtu.be/dQw4w9WgXcQ").Ok?
  {
    assert "https://" + "youtu.be/" == "https://youtu.be/";
    AcceptedByPrefix("https://youtu.be/dQw4w9WgXcQ", "https://youtu.be/");
  }

  lemma ValidatePlaylistExample()
    ensures ValidateYoutubeUrl("https://" + "youtube.com/playlist?list=" + "PLrAXtmErZgOeiKm4sgNOknGvNjby9efdf").Ok?
  {
    AcceptedPieces("https://", "youtube.com/playlist?list=", "PLrAXtmErZgOeiKm4sgNOknGvNjby9efdf");
  }

  /** A scheme, a path and an id starting with an id character: the path's pattern accepts it. */
  lemma {:induction false} AcceptedPieces(scheme: string, path: string, id: string)
    requires id != [] && IsIdChar(id[0])
    ensures PrefixThenId(scheme + path + id, scheme + path)
  {
    assert (scheme + path + id)[..|scheme + path|] == scheme + path;
    assert (scheme + path + id)[|scheme + path|] == id[0];
  }

  lemma ValidateShortsExample()
    ensures ValidateYoutubeUrl("https://youtube.com/shorts/abc123def").Ok?
  {
    assert "https://" + "youtube.com/shorts/" == "https://youtube.com/shorts/";
    AcceptedByPrefix("https://youtube.com/shorts/abc123def", "https://youtube.com/shorts/");
  }

  lemma ValidateRejectsExamples()
    ensures ValidateYoutubeUrl("https://example.com/video").Err?
    ensures ValidateYoutubeUrl("not a url").Err?
  {
    RejectedHost("https://example.com/video");
    RejectedScheme("not a url");
  }

  // ---------------------------------------------------------------- byte sizes

  const BYTE_UNITS: seq<string> := ["B", "KB", "MB", "GB", "TB"]

  function Pow1024(k: nat): (p: nat)
    ensures p >= 1
  {
    if k == 0 then 1 else 1024 * Pow1024(k - 1)
  }

  /** The number `value` followed by `unit`; the two-decimal rendering is not modelled. */
  datatype ScaledSize = ScaledSize(value: real, unit: string)

  /** `size` in `unit` is `bytes`, with the unit as large as possible up to TB. */
  predicate IsByteSizeOf(bytes: nat, size: real, unitIndex: nat)
  {
    unitIndex < |BYTE_UNITS|
    && size * (Pow1024(unitIndex) as real) == bytes as real
    && (size < 1024.0 || unitIndex == |BYTE_UNITS| - 1)
    && (unitIndex > 0 ==> size >= 1.0)
  }

  /** Divides by 1024 while the size is at least 1024 and a larger unit remains. */
  method FormatBytes(bytes: nat) returns (r: ScaledSize)
    ensures exists k: nat :: IsByteSizeOf(bytes, r.value, k) && r.unit == BYTE_UNITS[k]
  {
    var size: real := bytes as real;
    var unitIndex: nat := 0;
    while size >= 1024.0 && unitIndex < |BYTE_UNITS| - 1
      invariant unitIndex < |BYTE_UNITS|
      invariant size * (Pow1024(unitIndex) as real) == bytes as real
      invariant unitIndex > 0 ==> size >= 1.0
      decreases |BYTE_UNITS| - unitIndex
    {
      ScaleDown(size, unitIndex, bytes);
      size := size / 1024.0;
      unitIndex := unitIndex + 1;
    }
    r := ScaledSize(size, BYTE_UNITS[unitIndex]);
  }

  /** One more division by 1024 is one more power of 1024 in the scale. */
  lemma {:induction false} ScaleDown(size: real, k: nat, bytes: nat)
    requires size * (Pow1024(k) as real) == bytes as real
    ensures (size / 1024.0) * (Pow1024(k + 1) as real) == bytes as real
  {
    var p := Pow1024(k) as real;
    assert Pow1024(k + 1) as real == p * 1024.0;
    assert (size / 1024.0) * (p * 1024.0) == size * p;
  }

  /** The unit chosen is the one whose range holds the byte count: 1024^k <= bytes < 1024^(k+1). */
  lemma {:induction false} ByteSizeBounds(bytes: nat, size: real, k: nat)
    requires IsByteSizeOf(bytes, size, k)
    ensures k > 0 ==> Pow1024(k) <= bytes
    ensures k < |BYTE_UNITS| - 1 ==> bytes < Pow1024(k + 1)
  {
    if k > 0 {
      LowerBound(bytes, size, Pow1024(k));
    }
    if k < |BYTE_UNITS| - 1 {
      UpperBound(bytes, size, Pow1024(k));
    }
  }

  lemma {:induction false} LowerBound(bytes: nat, size: real, p: nat)
    requires size * (p as real) == bytes as real && size >= 1.0
    ensures p <= bytes
  {
    AtLeastOneScales(size, p as real);
  }

  lemma {:induction false} UpperBound(bytes: nat, size: real, p: nat)
    requires size * (p as real) == bytes as real && size < 1024.0 && p >= 1
    ensures bytes < 1024 * p
  {
    var q := p as real;
    BelowBoundScales(size, q);
    assert bytes as real < 1024.0 * q;
    assert (1024 * p) as real == 1024.0 * q;
  }

  lemma {:induction false} AtLeastOneScales(s: real, p: real)
    requires s >= 1.0 && p >= 0.0
    ensures s * p >= p
  {
    assert s * p - p == (s - 1.0) * p;
  }

  lemma {:induction false} BelowBoundScales(s: real, p: real)
    requires s < 1024.0 && p > 0.0
    ensures s * p < 1024.0 * p
  {
    assert 1024.0 * p - s * p == (1024.0 - s) * p;
  }

  lemma {:induction false} PowMonotone(i: nat, j: nat)
    requires i <= j
    ensures Pow1024(i) <= Pow1024(j)
    decreases j - i
  {
    if i < j {
      PowMonotone(i, j - 1);
    }
  }

  /** A byte count has one rendering only: the unit and the value are determined by the count. */
  lemma {:induction false} ByteSizeUnique(bytes: nat, s: real, k: nat, s': real, k': nat)
    requires IsByteSizeOf(bytes, s, k) && IsByteSizeOf(bytes, s', k')
    ensures k == k' && s == s'
  {
    if k < k' {
      PowMonotone(k + 1, k');
    } else if k' < k {
      PowMonotone(k' + 1, k);
    }
    ByteSizeBounds(bytes, s, k);
    ByteSizeBounds(bytes, s', k');
    SameScale(s, s', Pow1024(k) as real, bytes as real);
  }

  lemma {:induction false} SameScale(s: real, s': real, p: real, x: real)
    requires p >= 1.0 && s * p == x && s' * p == x
    ensures s == s'
  {
    assert (s - s') * p == 0.0;
  }

  /** The byte counts of the module's test: 0 B, then exactly 1 KB, 1 MB and 1 GB. */
  lemma FormatBytesExamples()
    ensures IsByteSizeOf(0, 0.0, 0) && BYTE_UNITS[0] == "B"
    ensures IsByteSizeOf(1024, 1.0, 1) && BYTE_UNITS[1] == "KB"
    ensures IsByteSizeOf(1048576, 1.0, 2) && BYTE_UNITS[2] == "MB"
    ensures IsByteSizeOf(1073741824, 1.0, 3) && BYTE_UNITS[3] == "GB"
  {
    assert Pow1024(1) == 1024;
    assert Pow1024(2) == 1048576;
    assert Pow1024(3) == 1073741824;
  }

  // ---------------------------------------------------------------- durations

  /** `HH:MM:SS` from one hour on, `MM:SS` below it; every field at least two digits. */
  function FormatDuration(seconds: nat): string
  {
    FormatClock(seconds / 3600, (seconds % 3600) / 60, seconds % 60)
  }

  /** The clock text of hours, minutes and seconds; the hours field only when there are any. */
  function FormatClock(hours: nat, minutes: nat, secs: nat): string
  {
    if hours > 0 then Pad2(hours) + ":" + Pad2(minutes) + ":" + Pad2(secs)
    else Pad2(minutes) + ":" + Pad2(secs)
  }

  /** Reads a clock text back: the fields are hours, minutes, seconds from the right. */
  function ClockSeconds(fields: seq<string>): Option<nat>
  {
    if |fields| == 2 && AllDigits(fields[0]) && AllDigits(fields[1]) then
      Some(DigitsValue(fields[0]) * 60 + DigitsValue(fields[1]))
    else if |fields| == 3 && AllDigits(fields[0]) && AllDigits(fields[1]) && AllDigits(fields[2]) then
      Some(DigitsValue(fields[0]) * 3600 + DigitsValue(fields[1]) * 60 + DigitsValue(fields[2]))
    else None
  }

  /** The rendered duration has two fields exactly below one hour and reads back to the input. */
  lemma {:induction false} FormatDurationRoundTrip(seconds: nat)
    ensures |Split(FormatDuration(seconds), ':')| == (if seconds >= 3600 then 3 else 2)
    ensures ClockSeconds(Split(FormatDuration(seconds), ':')) == Some(seconds)
  {
    DurationFields(seconds);
    var h, m, s := seconds / 3600, (seconds % 3600) / 60, seconds % 60;
    var hh, mm, ss := Pad2(h), Pad2(m), Pad2(s);
    Pad2RoundTrip(m);
    Pad2RoundTrip(s);
    if h > 0 {
      assert FormatDuration(seconds) == hh + ":" + mm + ":" + ss;
      Pad2RoundTrip(h);
      ThreeDigitFields(hh, mm, ss, h, m, s, seconds);
    } else {
      assert FormatDuration(seconds) == mm + ":" + ss;
      TwoDigitFields(mm, ss, m, s, seconds);
    }
  }

  /** The clock text has three fields exactly when there are hours, and reads back to its total. */
  lemma {:induction false} FormatClockRoundTrip(hours: nat, minutes: nat, secs: nat)
    ensures |Split(FormatClock(hours, minutes, secs), ':')| == (if hours > 0 then 3 else 2)
    ensures ClockSeconds(Split(FormatClock(hours, minutes, secs), ':')) == Some(hours * 3600 + minutes * 60 + secs)
  {
    var hh, mm, ss := Pad2(hours), Pad2(minutes), Pad2(secs);
    Pad2RoundTrip(minutes);
    Pad2RoundTrip(secs);
    if hours > 0 {
      assert FormatClock(hours, minutes, secs) == hh + ":" + mm + ":" + ss;
      Pad2RoundTrip(hours);
      ThreeDigitFields(hh, mm, ss, hours, minutes, secs, hours * 3600 + minutes * 60 + secs);
    } else {
      assert FormatClock(hours, minutes, secs) == mm + ":" + ss;
      TwoDigitFields(mm, ss, minutes, secs, minutes * 60 + secs);
    }
  }

  lemma {:induction false} ThreeDigitFields(hh: string, mm: string, ss: string, hours: nat, minutes: nat, secs: nat, total: nat)
    requires AllDigits(hh) && AllDigits(mm) && AllDigits(ss)
    requires DigitsValue(hh) == hours && DigitsValue(mm) == minutes && DigitsValue(ss) == secs
    requires total == hours * 3600 + minutes * 60 + secs
    ensures |Split(hh + ":" + mm + ":" + ss, ':')| == 3
    ensures ClockSeconds(Split(hh + ":" + mm + ":" + ss, ':')) == Some(total)
  {
    SplitThreeDigitFields(hh, mm, ss);
  }

  lemma {:induction false} TwoDigitFields(mm: string, ss: string, minutes: nat, secs: nat, total: nat)
    requires AllDigits(mm) && AllDigits(ss)
    requires DigitsValue(mm) == minutes && DigitsValue(ss) == secs
    requires total == minutes * 60 + secs
    ensures |Split(mm + ":" + ss, ':')| == 2
    ensures ClockSeconds(Split(mm + ":" + ss, ':')) == Some(total)
  {
    SplitTwoDigitFields(mm, ss);
  }

  /** Hours, minutes and seconds recombine to the input, and minutes and seconds stay below 60. */
  lemma {:induction false} DurationFields(seconds: nat)
    ensures (seconds % 3600) / 60 < 60 && seconds % 60 < 60
    ensures seconds == (seconds / 3600) * 3600 + ((seconds % 3600) / 60) * 60 + seconds % 60
    ensures seconds / 3600 > 0 <==> seconds >= 3600
  {
    var h := seconds / 3600;
    var r := seconds % 3600;
    assert seconds == h * 3600 + r;
    var m := r / 60;
    assert r == m * 60 + r % 60;
    assert seconds == (h * 60 + m) * 60 + r % 60;
    assert seconds % 60 == r % 60;
  }

  lemma FormatDurationExamples()
    ensures FormatDuration(0) == "00:00"
    ensures FormatDuration(65) == "01:05"
    ensures FormatDuration(3661) == "01:01:01"
  {
  }

}
