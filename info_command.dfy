/**
 * The info command's rendering of a fetched video: the duration, the view count, the
 * description preview and the numbered list of video formats. Printing is left out; each
 * piece is the text the command prints. `fixed` stands for Rust's `{:.N}` rendering of a
 * floating-point number.
 */
module InfoCommand {
  import opened Wrappers
  import opened Text
  import opened Shared
  import opened Utils
  import opened DL = Downloader

  type Fixed = (real, nat) -> string

  // ---------------------------------------------------------------- duration

  /** "H:MM:SS" from one hour on, "M:SS" below it; the leading field is not padded. */
  function InfoDuration(seconds: nat): string
  {
    InfoClock(seconds / 3600, (seconds % 3600) / 60, seconds % 60)
  }

  /** The clock text of hours, minutes and seconds, the leading field unpadded. */
  function InfoClock(hours: nat, minutes: nat, secs: nat): string
  {
    if hours > 0 then NatToString(hours) + ":" + Pad2(minutes) + ":" + Pad2(secs)
    else NatToString(minutes) + ":" + Pad2(secs)
  }

  /**
   * Three fields exactly from one hour on, two below it; the seconds field (and the minutes
   * field after an hours field) are two digits below 60, and the fields read back to the
   * duration.
   */
  lemma {:induction false} InfoDurationRoundTrip(seconds: nat)
    ensures var p := Split(InfoDuration(seconds), ':');
            |p| == (if seconds >= 3600 then 3 else 2) && ClockSeconds(p) == Some(seconds)
            && |p[|p| - 1]| == 2 && DigitsValue(p[|p| - 1]) < 60
    ensures seconds >= 3600 ==> var p := Split(InfoDuration(seconds), ':');
                                |p[1]| == 2 && DigitsValue(p[1]) < 60
  {
    DurationFields(seconds);
    InfoClockRoundTrip(seconds / 3600, (seconds % 3600) / 60, seconds % 60);
  }

  lemma {:induction false} InfoClockRoundTrip(hours: nat, minutes: nat, secs: nat)
    requires minutes < 60 && secs < 60
    ensures var p := Split(InfoClock(hours, minutes, secs), ':');
            |p| == (if hours > 0 then 3 else 2) && ClockSeconds(p) == Some(hours * 3600 + minutes * 60 + secs)
            && |p[|p| - 1]| == 2 && DigitsValue(p[|p| - 1]) < 60
    ensures hours > 0 ==> var p := Split(InfoClock(hours, minutes, secs), ':');
                          |p[1]| == 2 && DigitsValue(p[1]) < 60
  {
    if hours > 0 {
      assert InfoClock(hours, minutes, secs) == NatToString(hours) + ":" + Pad2(minutes) + ":" + Pad2(secs);
      HourFields(hours, minutes, secs);
    } else {
      assert InfoClock(hours, minutes, secs) == NatToString(minutes) + ":" + Pad2(secs);
      MinuteFields(minutes, secs);
    }
  }

  lemma {:induction false} HourFields(h: nat, m: nat, s: nat)
    requires m < 60 && s < 60
    ensures var p := Split(NatToString(h) + ":" + Pad2(m) + ":" + Pad2(s), ':');
            |p| == 3 && ClockSeconds(p) == Some(h * 3600 + m * 60 + s)
            && |p[1]| == 2 && DigitsValue(p[1]) == m && |p[2]| == 2 && DigitsValue(p[2]) == s
  {
    var hh, mm, ss := NatToString(h), Pad2(m), Pad2(s);
    NatToStringRoundTrip(h);
    Pad2RoundTrip(m);
    Pad2RoundTrip(s);
    SplitThreeDigitFields(hh, mm, ss);
  }

  lemma {:induction false} MinuteFields(m: nat, s: nat)
    requires s < 60
    ensures var p := Split(NatToString(m) + ":" + Pad2(s), ':');
            |p| == 2 && ClockSeconds(p) == Some(m * 60 + s) && |p[1]| == 2 && DigitsValue(p[1]) == s
  {
    var mm, ss := NatToString(m), Pad2(s);
    NatToStringRoundTrip(m);
    Pad2RoundTrip(s);
    SplitTwoDigitFields(mm, ss);
  }

  lemma InfoDurationExamples()
    ensures InfoDuration(65) == "1:05"
    ensures InfoDuration(3661) == "1:01:01"
    ensures InfoDuration(0) == "0:00"
  {
  }

  // ---------------------------------------------------------------- description preview

  const PREVIEW_BYTES: nat := 200
  const ELLIPSIS: string := "..."

  /**
   * The preview as written: a description longer than 200 bytes is sliced at byte 200 and
   * followed by "..."; `None` is the panic the slice raises when byte 200 falls inside a
   * character.
   */
  function PreviewAsWritten(d: string): (r: Option<string>)
    ensures ByteLen(d) <= PREVIEW_BYTES ==> r == Some(d)
    ensures r.None? <==> ByteLen(d) > PREVIEW_BYTES && CharIndexAt(d, PREVIEW_BYTES).None?
  {
    if ByteLen(d) > PREVIEW_BYTES then
      match CharIndexAt(d, PREVIEW_BYTES)
      case None => None
      case Some(k) => Some(d[..k] + ELLIPSIS)
    else Some(d)
  }

  /** The number of leading characters of `s` that fit in `budget` bytes. */
  function FitWithin(s: string, budget: nat): (k: nat)
    ensures k <= |s|
  {
    if s == [] || Utf8Len(s[0]) > budget then 0
    else FitWithin(s[1..], budget - Utf8Len(s[0])) + 1
  }

  /** What fits is the longest prefix within the budget: one character more would not fit. */
  lemma {:induction false} FitWithinIsLongest(s: string, budget: nat)
    ensures ByteLen(s[..FitWithin(s, budget)]) <= budget
    ensures FitWithin(s, budget) < |s| ==> ByteLen(s[..FitWithin(s, budget) + 1]) > budget
  {
    if s == [] || Utf8Len(s[0]) > budget {
      assert s[..0] == [];
      assert s != [] ==> s[..1][1..] == [];
    } else {
      var k := FitWithin(s[1..], budget - Utf8Len(s[0]));
      FitWithinIsLongest(s[1..], budget - Utf8Len(s[0]));
      assert s[..k + 1][1..] == s[1..][..k];
      assert k + 1 < |s| ==> s[..k + 2][1..] == s[1..][..k + 1];
    }
  }

  /**
   * The preview as intended: a description longer than 200 bytes is cut after its last
   * whole character within the first 200 bytes and followed by "..."; a shorter one is
   * shown unchanged.
   */
  function Preview(d: string): (r: string)
    ensures ByteLen(d) <= PREVIEW_BYTES ==> r == d
    ensures ByteLen(d) > PREVIEW_BYTES ==>
              var k := FitWithin(d, PREVIEW_BYTES);
              r == d[..k] + ELLIPSIS && k < |d| && ByteLen(d[..k]) <= PREVIEW_BYTES < ByteLen(d[..k + 1])
  {
    if ByteLen(d) > PREVIEW_BYTES then
      var k := FitWithin(d, PREVIEW_BYTES);
      FitWithinIsLongest(d, PREVIEW_BYTES);
      assert d[..|d|] == d;
      d[..k] + ELLIPSIS
    else d
  }

  /** Where byte 200 is a character boundary the cut is the one the slice makes. */
  lemma {:induction false} FitAtBoundary(s: string, b: nat)
    requires CharIndexAt(s, b).Some?
    ensures FitWithin(s, b) == CharIndexAt(s, b).value
  {
    if b > 0 {
      FitAtBoundary(s[1..], b - Utf8Len(s[0]));
    }
  }

  /** The intended preview agrees with the one written whenever the written one does not panic. */
  lemma {:induction false} PreviewAgrees(d: string)
    requires PreviewAsWritten(d).Some?
    ensures PreviewAsWritten(d) == Some(Preview(d))
  {
    if ByteLen(d) > PREVIEW_BYTES {
      FitAtBoundary(d, PREVIEW_BYTES);
    }
  }

  /** In particular on every ASCII description, whatever its length. */
  lemma {:induction false} PreviewAsciiNeverPanics(d: string)
    requires IsAscii(d)
    ensures PreviewAsWritten(d).Some?
  {
    AsciiByteLen(d);
    if ByteLen(d) > PREVIEW_BYTES {
      AsciiCharIndex(d, PREVIEW_BYTES);
    }
  }

  /** ASCII text in front adds one byte per character. */
  lemma {:induction false} AsciiPrefixByteLen(a: string, s: string)
    requires IsAscii(a)
    ensures ByteLen(a + s) == |a| + ByteLen(s)
  {
    ByteLenAppend(a, s);
    AsciiByteLen(a);
  }

  lemma {:induction false} ByteLenAppend(a: string, s: string)
    ensures ByteLen(a + s) == ByteLen(a) + ByteLen(s)
  {
    if a == [] {
      assert a + s == s;
    } else {
      assert (a + s)[1..] == a[1..] + s;
      assert (a + s)[0] == a[0];
      ByteLenAppend(a[1..], s);
    }
  }

  /** Past ASCII text in front, the boundaries are those of the rest, shifted. */
  lemma {:induction false} AsciiPrefixCharIndex(a: string, s: string, b: nat)
    requires IsAscii(a) && |a| <= b
    ensures CharIndexAt(a + s, b).None? <==> CharIndexAt(s, b - |a|).None?
  {
    if a == [] {
      assert a + s == s;
    } else {
      assert IsAscii(a[1..]) by {
        forall i | 0 <= i < |a[1..]| ensures a[1..][i] as int < 0x80 {
          assert a[1..][i] == a[i + 1];
        }
      }
      assert (a + s)[1..] == a[1..] + s;
      assert (a + s)[0] == a[0];
      AsciiPrefixCharIndex(a[1..], s, b - 1);
    }
  }

  /**
   * 199 ASCII letters then 'é' (two bytes) make 201 bytes; byte 200 falls inside the 'é',
   * so the slice as written panics.
   */
  lemma PreviewPanicsInsideCharacter()
    ensures var d := seq(199, _ => 'a') + ['\U{e9}'];
            ByteLen(d) == 201 && PreviewAsWritten(d).None?
    ensures var d := seq(199, _ => 'a') + ['\U{e9}'];
            Preview(d) == seq(199, _ => 'a') + ELLIPSIS
  {
    var a := seq(199, _ => 'a');
    var d := a + ['\U{e9}'];
    assert IsAscii(a);
    AsciiPrefixByteLen(a, ['\U{e9}']);
    assert ByteLen(['\U{e9}']) == 2;
    assert CharIndexAt(['\U{e9}'], 1).None?;
    AsciiPrefixCharIndex(a, ['\U{e9}'], PREVIEW_BYTES);
    AsciiPrefixFit(a, ['\U{e9}'], PREVIEW_BYTES);
    assert FitWithin(['\U{e9}'], 1) == 0;
    assert d[..199] == a;
  }

  /** Past ASCII text in front, what fits is that text and what of the rest fits the remaining budget. */
  lemma AsciiPrefixFit(a: string, s: string, b: nat)
    requires IsAscii(a) && |a| <= b
    ensures FitWithin(a + s, b) == |a| + FitWithin(s, b - |a|)
  {
    var x := a + s;
    assert forall i :: 0 <= i < |a| ==> x[i] as int < 0x80 by {
      forall i | 0 <= i < |a| ensures x[i] as int < 0x80 {
        assert x[i] == a[i];
      }
    }
    AsciiRunFits(x, |a|, b);
    assert x[|a|..] == s;
  }

  /** The first `n` characters of `x`, all ASCII, fit in any budget of at least `n` bytes. */
  lemma {:induction false} AsciiRunFits(x: string, n: nat, b: nat)
    requires n <= |x| && n <= b && forall i :: 0 <= i < n ==> x[i] as int < 0x80
    ensures FitWithin(x, b) == n + FitWithin(x[n..], b - n)
  {
    if n == 0 {
      assert x[0..] == x;
    } else {
      FitAsciiHead(x, b);
      var y := x[1..];
      assert forall i :: 0 <= i < n - 1 ==> y[i] as int < 0x80 by {
        forall i | 0 <= i < n - 1 ensures y[i] as int < 0x80 {
          assert y[i] == x[i + 1];
        }
      }
      AsciiRunFits(y, n - 1, b - 1);
      assert y[n - 1..] == x[n..] && (b - 1) - (n - 1) == b - n;
      assert FitWithin(y[n - 1..], (b - 1) - (n - 1)) == FitWithin(x[n..], b - n);
    }
  }

  /** A leading ASCII character within budget always fits, costing one byte. */
  lemma {:induction false} FitAsciiHead(x: string, b: nat)
    requires x != [] && x[0] as int < 0x80 && b >= 1
    ensures FitWithin(x, b) == 1 + FitWithin(x[1..], b - 1)
  {
  }

  // ---------------------------------------------------------------- format list

  /** The formats listed: those with a video stream, tallest first, at most ten. */
  function InfoFormats(fs: seq<Format>): (r: seq<Format>)
    ensures |r| <= MAX_FORMAT_DISPLAY_COUNT
  {
    TallestVideoFormats(fs, MAX_FORMAT_DISPLAY_COUNT)
  }

  /** The number a line of the list starts with. */
  function NumberPrefix(number: nat): string
  {
    "  " + NatToString(number) + ". "
  }

  /** One line of the list: number, resolution, frame rate, size in MB with one decimal, extension. */
  function FormatLine(number: nat, f: Format, fixed: Fixed): string
  {
    NumberPrefix(number) + FormatDetails(f, fixed)
  }

  /** What follows the number: resolution, frame rate, size and extension. */
  function FormatDetails(f: Format, fixed: Fixed): string
  {
    var res := f.resolution.GetOr("unknown");
    var fps := if f.fps.Some? then NatToString(f.fps.value) + "fps" else "";
    var size := if f.filesize.Some? then fixed(f.filesize.value as real / 1000000.0, 1) + " MB" else "unknown size";
    res + " " + fps + " - " + size + " (" + f.ext + ")"
  }

  /** The lines for a list of formats, numbered from 1. */
  function FormatLines(l: seq<Format>, fixed: Fixed): (r: seq<string>)
    ensures |r| == |l| && forall i :: 0 <= i < |l| ==> r[i] == FormatLine(i + 1, l[i], fixed)
  {
    if l == [] then [] else FormatLines(l[..|l| - 1], fixed) + [FormatLine(|l|, l[|l| - 1], fixed)]
  }

  /** The format part of `show_video_info`: one line per listed format, by an enumerating loop. */
  method ListFormats(fs: seq<Format>, fixed: Fixed) returns (lines: seq<string>)
    ensures lines == FormatLines(InfoFormats(fs), fixed)
  {
    var listed := InfoFormats(fs);
    lines := [];
    var i := 0;
    while i < |listed|
      invariant 0 <= i <= |listed|
      invariant lines == FormatLines(listed[..i], fixed)
    {
      assert listed[..i + 1][..i] == listed[..i];
      lines := lines + [FormatLine(i + 1, listed[i], fixed)];
      i := i + 1;
    }
    assert listed[..i] == listed;
  }

  /**
   * At most ten lines, numbered 1, 2, … in list order, each for a format with a video
   * stream, tallest first, with no video format left off taller than one listed.
   */
  lemma {:induction false} FormatListShape(fs: seq<Format>, fixed: Fixed)
    ensures var l := InfoFormats(fs);
            var lines := FormatLines(l, fixed);
            |lines| <= 10 && forall i :: 0 <= i < |lines| ==> lines[i] == FormatLine(i + 1, l[i], fixed) && IsVideoFormat(l[i])
    ensures var l := InfoFormats(fs);
            forall i, j :: 0 <= i < j < |l| ==> Height(l[i]) >= Height(l[j])
    ensures var l := InfoFormats(fs);
            forall i, x :: 0 <= i < |l| && x in multiset(Sequences.Filter(fs, IsVideoFormat)) - multiset(l) ==> Height(x) <= Height(l[i])
  {
    TallestVideoFormatsShape(fs, MAX_FORMAT_DISPLAY_COUNT);
  }

  /** Each line starts with its own number, and lines with different numbers differ. */
  lemma {:induction false} FormatLineNumbered(m: nat, n: nat, f: Format, g: Format, fixed: Fixed)
    ensures StartsWith(FormatLine(n, f, fixed), NumberPrefix(n))
    ensures m != n ==> FormatLine(m, f, fixed) != FormatLine(n, g, fixed)
  {
    StartsWithNumber(n, f, fixed);
    StartsWithNumber(m, f, fixed);
    StartsWithNumber(n, g, fixed);
    if FormatLine(m, f, fixed) == FormatLine(n, g, fixed) {
      NumberPrefixInjective(m, n, FormatLine(n, g, fixed));
    }
  }

  lemma {:induction false} StartsWithNumber(n: nat, f: Format, fixed: Fixed)
    ensures StartsWith(FormatLine(n, f, fixed), NumberPrefix(n))
  {
    var p := NumberPrefix(n);
    var rest := FormatDetails(f, fixed);
    assert (p + rest)[..|p|] == p;
  }

  /** Two numbers whose prefixes start the same line are equal: the digits run up to the period. */
  lemma {:induction false} NumberPrefixInjective(m: nat, n: nat, line: string)
    requires StartsWith(line, NumberPrefix(m)) && StartsWith(line, NumberPrefix(n))
    ensures m == n
  {
    var x, y := NatToString(m), NatToString(n);
    DigitsBeforePeriod(x, line);
    DigitsBeforePeriod(y, line);
    if |x| == |y| {
      assert forall i :: 0 <= i < |x| ==> x[i] == y[i] by {
        forall i | 0 <= i < |x| ensures x[i] == y[i] {
          assert x[i] == line[2 + i] == y[i];
        }
      }
      assert x == y;
      NatToStringInjective(m, n);
    }
  }

  lemma {:induction false} DigitsBeforePeriod(x: string, line: string)
    requires StartsWith(line, "  " + x + ". ")
    ensures 2 + |x| < |line| && line[2 + |x|] == '.'
    ensures forall i :: 0 <= i < |x| ==> line[2 + i] == x[i]
  {
    var p := "  " + x + ". ";
    assert line[..|p|] == p;
    assert p[2 + |x|] == '.';
    forall i | 0 <= i < |x| ensures line[2 + i] == x[i] {
      assert p[2 + i] == x[i];
    }
  }
}
