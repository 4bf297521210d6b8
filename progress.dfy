/**
 * The per-line progress parser of the download driver. yt-dlp prints one progress line at
 * a time; a line yields one sample exactly when the percentage pattern
 * `\[download\]\s+(\d+\.?\d*)%` matches somewhere in it. Size, speed and ETA come from
 * their own patterns and stay at zero (or absent) when those do not match.
 *
 * Each pattern is written out as a function that computes, for one start position, the
 * match the regex engine's backtracking search would report there (greedy repetitions,
 * giving back characters only as far as the rest of the pattern needs), and `Leftmost`
 * takes the first start position with a match, as `Regex::captures` does.
 * Floating-point values are exact reals; `as u64` is a floor that saturates.
 */
module ProgressParser {
  import opened Wrappers
  import opened Text
  import opened Shared

  /** One sample handed to the progress callback. */
  datatype ProgressInfo = ProgressInfo(
    percentage: real,
    downloadedBytes: nat,
    totalBytes: nat,
    speed: real,
    eta: Option<nat>)

  const DOWNLOAD_TAG: string := "[download]"

  predicate IsDigitOrDot(c: char) { IsDigit(c) || c == '.' }

  predicate AllDigitsOrDots(s: string) { forall k :: 0 <= k < |s| ==> IsDigitOrDot(s[k]) }

  predicate IsDigitOrColon(c: char) { IsDigit(c) || c == ':' }

  // ---------------------------------------------------------------- leftmost search

  /** The first start position in `i..=n` at which `at` reports a match, with that match. */
  function Leftmost<T>(n: nat, at: nat -> Option<T>, i: nat): (r: Option<(nat, T)>)
    requires i <= n + 1
    ensures r.Some? ==> i <= r.value.0 <= n && at(r.value.0) == Some(r.value.1)
    ensures r.Some? ==> forall k :: i <= k < r.value.0 ==> at(k).None?
    ensures r.None? ==> forall k :: i <= k <= n ==> at(k).None?
    decreases n + 1 - i
  {
    if i > n then None
    else match at(i)
      case Some(m) => Some((i, m))
      case None => Leftmost(n, at, i + 1)
  }

  /** The search reports the first matching position. */
  lemma {:induction false} LeftmostIs<T>(n: nat, at: nat -> Option<T>, i: nat, k: nat)
    requires i <= k <= n && at(k).Some?
    requires forall j: nat :: i <= j < k ==> at(j).None?
    ensures Leftmost(n, at, i) == Some((k, at(k).value))
  {
    var r := Leftmost(n, at, i);
    assert r.Some?;
    assert r.value.0 == k;
  }

  // ---------------------------------------------------------------- the percentage pattern

  /** The captured percentage text of a match of `\[download\]\s+(\d+\.?\d*)%` starting at `i`. */
  function PercentAt(line: string, i: nat): Option<string>
  {
    if i > |line| || !StartsWith(line[i..], DOWNLOAD_TAG) then None
    else
      var a := SkipWhile(line, i + |DOWNLOAD_TAG|, IsWhitespace);
      if a == i + |DOWNLOAD_TAG| then None
      else
        var b := SkipWhile(line, a, IsDigit);
        if b == a then None
        else
          var c := if b < |line| && line[b] == '.' then b + 1 else b;
          var e := SkipWhile(line, c, IsDigit);
          if e < |line| && line[e] == '%' then Some(line[a..e]) else None
  }

  /** Text of the shape `\d+\.?\d*`: a digit first, then digits with at most one dot. */
  predicate IsUnsignedDecimal(s: string)
  {
    s != [] && IsDigit(s[0])
    && (forall k :: 0 <= k < |s| ==> IsDigitOrDot(s[k]))
    && (forall j, k :: 0 <= j < k < |s| && s[j] == '.' ==> s[k] != '.')
  }

  /** A match of the percentage pattern at `i` whose group spans `a..e` (declarative reading). */
  predicate PercentMatch(line: string, i: nat, a: nat, e: nat)
  {
    i + |DOWNLOAD_TAG| < a <= e < |line|
    && StartsWith(line[i..], DOWNLOAD_TAG)
    && (forall k :: i + |DOWNLOAD_TAG| <= k < a ==> IsWhitespace(line[k]))
    && IsUnsignedDecimal(line[a..e])
    && line[e] == '%'
  }

  /** `SkipWhile` stops exactly at the first position that fails the test. */
  lemma {:induction false} SkipWhileAt(s: string, i: nat, f: char -> bool, j: nat)
    requires i <= j <= |s|
    requires forall k :: i <= k < j ==> f(s[k])
    requires j < |s| ==> !f(s[j])
    ensures SkipWhile(s, i, f) == j
  {
  }

  lemma {:induction false} PercentAtSound(line: string, i: nat)
    ensures PercentAt(line, i).Some? ==>
              exists a: nat, e: nat :: PercentMatch(line, i, a, e) && PercentAt(line, i) == Some(line[a..e])
  {
    if PercentAt(line, i).Some? {
      PercentMatchOf(line, i);
    }
  }

  lemma {:induction false} PercentMatchOf(line: string, i: nat)
    requires PercentAt(line, i).Some?
    ensures exists a: nat, e: nat :: PercentMatch(line, i, a, e) && PercentAt(line, i) == Some(line[a..e])
  {
    var a := SkipWhile(line, i + |DOWNLOAD_TAG|, IsWhitespace);
    var b := SkipWhile(line, a, IsDigit);
    var c := if b < |line| && line[b] == '.' then b + 1 else b;
    var e := SkipWhile(line, c, IsDigit);
    assert PercentAt(line, i) == Some(line[a..e]);
    DecimalShape(line, a, b, c, e);
    assert PercentMatch(line, i, a, e);
  }

  /** Digits, then at most one dot, then digits, read as one `\d+\.?\d*` group. */
  lemma {:induction false} DecimalShape(line: string, a: nat, b: nat, c: nat, e: nat)
    requires a < b <= c <= e <= |line| && c <= b + 1
    requires forall k :: a <= k < b ==> IsDigit(line[k])
    requires c == b + 1 ==> line[b] == '.'
    requires forall k :: c <= k < e ==> IsDigit(line[k])
    ensures IsUnsignedDecimal(line[a..e])
  {
    var s := line[a..e];
    assert s[0] == line[a];
    forall k | 0 <= k < |s| ensures IsDigitOrDot(s[k]) && (s[k] == '.' ==> a + k == b) {
      assert s[k] == line[a + k];
    }
  }

  lemma {:induction false} PercentAtComplete(line: string, i: nat, a: nat, e: nat)
    requires PercentMatch(line, i, a, e)
    ensures PercentAt(line, i) == Some(line[a..e])
  {
    var s := line[a..e];
    assert line[a] == s[0];
    SkipWhileAt(line, i + |DOWNLOAD_TAG|, IsWhitespace, a);
    var b := SkipWhile(line, a, IsDigit);
    assert b <= e by {
      assert !IsDigit(line[e]);
    }
    if b < e {
      assert line[b] == s[b - a];
      assert line[b] == '.';
      forall k | b + 1 <= k < e ensures IsDigit(line[k]) {
        assert line[k] == s[k - a];
      }
      SkipWhileAt(line, b + 1, IsDigit, e);
    } else {
      SkipWhileAt(line, b, IsDigit, e);
    }
  }

  // ---------------------------------------------------------------- size and speed patterns

  /**
   * Backtracking over `([\d.]+)(\w+)` followed by `suffix`: the number group gives back
   * characters from its greedy length `k` until the word group that follows is non-empty
   * and `suffix` comes right after it.
   */
  function NumberThenWord(line: string, q: nat, k: nat, suffix: string): (r: Option<(string, string)>)
    requires q + k <= |line|
    ensures r.Some? ==> r.value.0 != [] && r.value.1 != []
    decreases k
  {
    if k == 0 then None
    else
      var u := SkipWhile(line, q + k, IsWordChar);
      if u > q + k && StartsWith(line[u..], suffix) then Some((line[q..q + k], line[q + k..u]))
      else NumberThenWord(line, q, k - 1, suffix)
  }

  /** Number and unit of a match of `of\s+~?\s*([\d.]+)(\w+)` starting at `i`. */
  function SizeAt(line: string, i: nat): Option<(string, string)>
  {
    if i > |line| then None else SizeHere(line[i..])
  }

  /** The same pattern anchored at the start of `t` (nothing before the start matters). */
  function SizeHere(t: string): Option<(string, string)>
  {
    if !StartsWith(t, "of") then None
    else
      var a := SkipWhile(t, 2, IsWhitespace);
      if a == 2 then None
      else
        var b := if a < |t| && t[a] == '~' then a + 1 else a;
        var q := SkipWhile(t, b, IsWhitespace);
        var r := SkipWhile(t, q, IsDigitOrDot);
        NumberThenWord(t, q, r - q, "")
  }

  /** Number and unit of a match of `at\s+([\d.]+)(\w+)/s` starting at `i`. */
  function SpeedAt(line: string, i: nat): Option<(string, string)>
  {
    if i > |line| then None else SpeedHere(line[i..])
  }

  function SpeedHere(t: string): Option<(string, string)>
  {
    if !StartsWith(t, "at") then None
    else
      var a := SkipWhile(t, 2, IsWhitespace);
      if a == 2 then None
      else
        var r := SkipWhile(t, a, IsDigitOrDot);
        NumberThenWord(t, a, r - a, "/s")
  }

  /** The captured text of a match of `ETA\s+([\d:]+)` starting at `i`. */
  function EtaAt(line: string, i: nat): Option<string>
  {
    if i > |line| then None else EtaHere(line[i..])
  }

  function EtaHere(t: string): Option<string>
  {
    if !StartsWith(t, "ETA") then None
    else
      var a := SkipWhile(t, 3, IsWhitespace);
      if a == 3 then None
      else
        var e := SkipWhile(t, a, IsDigitOrColon);
        if e == a then None else Some(t[a..e])
  }

  // ---------------------------------------------------------------- numbers

  function Pow10(n: nat): (p: nat)
    ensures p >= 1
  {
    if n == 0 then 1 else 10 * Pow10(n - 1)
  }

  /**
   * Rust's `f64::from_str` on the texts the patterns capture (digits and dots): at least
   * one digit and at most one dot. The value is exact.
   */
  function ParseDecimal(s: string): (r: Option<real>)
    ensures r.Some? ==> r.value >= 0.0
  {
    if !AllDigitsOrDots(s) then None
    else if '.' !in s then
      (if s == [] then None else Some(DigitsValue(s) as real))
    else
      var d := FirstIndex(s, '.');
      var whole, frac := s[..d], s[d + 1..];
      if '.' in frac || (whole == [] && frac == []) then None
      else Some(DigitsValue(whole) as real + (DigitsValue(frac) as real) / (Pow10(|frac|) as real))
  }

  lemma {:induction false} ParsePercentText(s: string)
    requires IsUnsignedDecimal(s)
    ensures ParseDecimal(s).Some?
  {
    if '.' in s {
      var d := FirstIndex(s, '.');
      assert s[d] == '.';
      var frac := s[d + 1..];
      forall k | 0 <= k < |frac| ensures frac[k] != '.' {
        assert frac[k] == s[d + 1 + k];
      }
    }
  }

  /** KiB, MiB and GiB are powers of 1024; every other unit counts as single bytes. */
  function Multiplier(unit: string): (m: real)
    ensures m >= 1.0
  {
    if unit == "KiB" then BYTES_PER_KB as real
    else if unit == "MiB" then BYTES_PER_MB as real
    else if unit == "GiB" then BYTES_PER_GB as real
    else 1.0
  }

  /** Rust's `as u64` on a float: rounds toward zero and saturates at both ends. */
  function SatU64(x: real): (n: nat)
    ensures n <= U64_MAX
    ensures 0.0 <= x < U64_MAX as real ==> n as real <= x < n as real + 1.0
    ensures x <= 0.0 ==> n == 0
  {
    if x <= 0.0 then 0 else if x >= U64_MAX as real then U64_MAX else x.Floor
  }

  /** Unsigned 64-bit arithmetic wraps around (the release profile's overflow behaviour). */
  function WrapU64(x: nat): (n: nat)
    ensures n <= U64_MAX
    ensures x <= U64_MAX ==> n == x
  {
    x % (U64_MAX + 1)
  }

  /** "M:S" and "H:M:S" ETA texts in seconds; any other shape, or a field that is no u64, gives None. */
  function ParseEta(t: string): (r: Option<nat>)
    ensures r.Some? ==> |Split(t, ':')| == 2 || |Split(t, ':')| == 3
  {
    EtaBy(ParseU64, Split(t, ':'))
  }

  /** The ETA of its colon-separated fields, each read by `parse`. */
  function EtaBy(parse: string -> Option<nat>, parts: seq<string>): (r: Option<nat>)
    ensures r.Some? ==> |parts| == 2 || |parts| == 3
  {
    if |parts| == 2 then
      var m, s := parse(parts[0]), parse(parts[1]);
      if m.Some? && s.Some? then Some(WrapU64(m.value * 60 + s.value)) else None
    else if |parts| == 3 then
      var h, m, s := parse(parts[0]), parse(parts[1]), parse(parts[2]);
      if h.Some? && m.Some? && s.Some? then Some(WrapU64(h.value * 3600 + m.value * 60 + s.value)) else None
    else None
  }

  lemma {:induction false} EtaMinutesSeconds(m: string, s: string)
    requires m != [] && s != [] && AllDigits(m) && AllDigits(s)
    requires DigitsValue(m) * 60 + DigitsValue(s) <= U64_MAX
    ensures ParseEta(m + ":" + s) == Some(DigitsValue(m) * 60 + DigitsValue(s))
  {
    SplitTwoDigitFields(m, s);
  }

  lemma {:induction false} EtaHoursMinutesSeconds(h: string, m: string, s: string)
    requires h != [] && m != [] && s != [] && AllDigits(h) && AllDigits(m) && AllDigits(s)
    requires DigitsValue(h) * 3600 + DigitsValue(m) * 60 + DigitsValue(s) <= U64_MAX
    ensures ParseEta(h + ":" + m + ":" + s)
            == Some(DigitsValue(h) * 3600 + DigitsValue(m) * 60 + DigitsValue(s))
  {
    var hv, mv, sv := DigitsValue(h), DigitsValue(m), DigitsValue(s);
    FieldsWithinU64(hv, mv, sv);
    SplitThreeDigitFields(h, m, s);
    DigitsParse(h);
    DigitsParse(m);
    DigitsParse(s);
    EtaOfThreeFields(h + ":" + m + ":" + s, h, m, s, hv, mv, sv);
  }

  lemma FieldsWithinU64(hv: nat, mv: nat, sv: nat)
    requires hv * 3600 + mv * 60 + sv <= U64_MAX
    ensures hv <= U64_MAX && mv <= U64_MAX && sv <= U64_MAX
  {
    assert hv <= hv * 3600;
    assert mv <= mv * 60;
  }

  lemma {:induction false} EtaOfThreeFields(t: string, h: string, m: string, s: string, hv: nat, mv: nat, sv: nat)
    requires Split(t, ':') == [h, m, s]
    requires ParseU64(h) == Some(hv) && ParseU64(m) == Some(mv) && ParseU64(s) == Some(sv)
    requires hv * 3600 + mv * 60 + sv <= U64_MAX
    ensures ParseEta(t) == Some(hv * 3600 + mv * 60 + sv)
  {
    EtaByThree(ParseU64, h, m, s, hv, mv, sv);
  }

  lemma {:induction false} EtaByThree(parse: string -> Option<nat>, h: string, m: string, s: string, hv: nat, mv: nat, sv: nat)
    requires parse(h) == Some(hv) && parse(m) == Some(mv) && parse(s) == Some(sv)
    requires hv * 3600 + mv * 60 + sv <= U64_MAX
    ensures EtaBy(parse, [h, m, s]) == Some(hv * 3600 + mv * 60 + sv)
  {
  }

  /** A non-empty run of digits within range reads as its value. */
  lemma {:induction false} DigitsParse(x: string)
    requires x != [] && AllDigits(x) && DigitsValue(x) <= U64_MAX
    ensures ParseU64(x) == Some(DigitsValue(x))
  {
    assert IsDigit(x[0]);
  }

  // ---------------------------------------------------------------- one line

  /**
   * The groups of the first start position in `0..=n` at which `at` matches, as
   * `Regex::captures` reports them; None exactly when no position matches.
   */
  function FirstMatch<T>(n: nat, at: nat -> Option<T>): (m: Option<T>)
    ensures m.None? <==> forall k :: 0 <= k <= n ==> at(k).None?
    ensures m.Some? ==> exists k :: 0 <= k <= n && at(k) == m && forall j :: 0 <= j < k ==> at(j).None?
  {
    match Leftmost(n, at, 0)
    case None => None
    case Some((k, g)) =>
      assert at(k) == Some(g);
      Some(g)
  }

  function PercentSearch(line: string): Option<(nat, string)>
  {
    Leftmost(|line|, k => PercentAt(line, k), 0)
  }

  /** Number and unit of the leftmost match of the size pattern. */
  function SizeMatch(line: string): Option<(string, string)>
  {
    FirstMatch(|line|, k => SizeAt(line, k))
  }

  /** Number and unit of the leftmost match of the speed pattern. */
  function SpeedMatch(line: string): Option<(string, string)>
  {
    FirstMatch(|line|, k => SpeedAt(line, k))
  }

  /** The captured text of the leftmost match of the ETA pattern. */
  function EtaMatch(line: string): Option<string>
  {
    FirstMatch(|line|, k => EtaAt(line, k))
  }

  /**
   * Total and downloaded bytes: both zero unless the size pattern matched with a number;
   * otherwise the total is that number of units, cast down to u64, and the downloaded
   * bytes are the percentage's share of the total, cast down again.
   */
  function SizeFields(line: string, percentage: real): (r: (nat, nat))
    requires percentage >= 0.0
    ensures SizeMatch(line).None? ==> r == (0, 0)
    ensures SizeMatch(line).Some? && ParseDecimal(SizeMatch(line).value.0).None? ==> r == (0, 0)
    ensures SizeMatch(line).Some? && ParseDecimal(SizeMatch(line).value.0).Some? ==>
              r.0 == SatU64(ParseDecimal(SizeMatch(line).value.0).value * Multiplier(SizeMatch(line).value.1))
              && r.1 == Share(r.0, percentage)
    ensures r.0 <= U64_MAX && r.1 <= U64_MAX
    ensures r.0 == 0 ==> r.1 == 0
    ensures percentage <= 100.0 ==> r.1 <= r.0
  {
    SizeOf(SizeMatch(line), percentage)
  }

  /** The two byte counts of a size match, if any. */
  function SizeOf(m: Option<(string, string)>, percentage: real): (r: (nat, nat))
    requires percentage >= 0.0
    ensures m.None? ==> r == (0, 0)
    ensures m.Some? && ParseDecimal(m.value.0).None? ==> r == (0, 0)
    ensures m.Some? && ParseDecimal(m.value.0).Some? ==>
              r.0 == SatU64(ParseDecimal(m.value.0).value * Multiplier(m.value.1))
              && r.1 == Share(r.0, percentage)
    ensures r.0 <= U64_MAX && r.1 <= U64_MAX
    ensures r.0 == 0 ==> r.1 == 0
    ensures percentage <= 100.0 ==> r.1 <= r.0
  {
    match m
    case None => (0, 0)
    case Some((num, unit)) =>
      match ParseDecimal(num)
      case None => (0, 0)
      case Some(size) =>
        var total := SatU64(size * Multiplier(unit));
        (total, Share(total, percentage))
  }

  /** `(total as f64 * percentage / 100.0) as u64`: the downloaded share of the total. */
  function Share(total: nat, percentage: real): (n: nat)
    requires percentage >= 0.0
    ensures total == 0 ==> n == 0
    ensures percentage <= 100.0 ==> n <= total
    ensures n <= U64_MAX
  {
    DownloadedBounded(total, percentage);
    SatU64(total as real * percentage / 100.0)
  }

  lemma {:induction false} DownloadedBounded(total: nat, percentage: real)
    requires percentage >= 0.0
    ensures total == 0 ==> SatU64(total as real * percentage / 100.0) == 0
    ensures percentage <= 100.0 ==> SatU64(total as real * percentage / 100.0) <= total
  {
    var t := total as real;
    var x := t * percentage / 100.0;
    FractionBounds(t, percentage);
    if percentage <= 100.0 {
      SatAtMost(x, total);
    }
  }

  lemma FractionBounds(t: real, p: real)
    requires t >= 0.0 && p >= 0.0
    ensures t * p / 100.0 >= 0.0
    ensures p <= 100.0 ==> t * p / 100.0 <= t
    ensures t == 0.0 ==> t * p / 100.0 == 0.0
  {
    MulNonNegative(t, p);
    if p <= 100.0 {
      FractionAtMost(t, p);
    }
  }

  lemma FractionAtMost(t: real, p: real)
    requires t >= 0.0 && 0.0 <= p <= 100.0
    ensures t * p / 100.0 <= t
  {
    var q := 100.0 - p;
    MulNonNegative(t, q);
    assert t * p == t * 100.0 - t * q;
  }

  lemma SatAtMost(x: real, total: nat)
    requires 0.0 <= x <= total as real
    ensures SatU64(x) <= total
  {
    if x < U64_MAX as real {
      assert SatU64(x) as real <= x;
    }
  }

  /** Bytes per second: zero unless the speed pattern matched with a number, then that number of units. */
  function SpeedField(line: string): (v: real)
    ensures SpeedMatch(line).None? ==> v == 0.0
    ensures SpeedMatch(line).Some? && ParseDecimal(SpeedMatch(line).value.0).None? ==> v == 0.0
    ensures SpeedMatch(line).Some? && ParseDecimal(SpeedMatch(line).value.0).Some? ==>
              v == ParseDecimal(SpeedMatch(line).value.0).value * Multiplier(SpeedMatch(line).value.1)
    ensures v >= 0.0
  {
    SpeedOf(SpeedMatch(line))
  }

  /** The bytes per second of a speed match, if any. */
  function SpeedOf(m: Option<(string, string)>): (v: real)
    ensures m.None? ==> v == 0.0
    ensures m.Some? && ParseDecimal(m.value.0).None? ==> v == 0.0
    ensures m.Some? && ParseDecimal(m.value.0).Some? ==> v == ParseDecimal(m.value.0).value * Multiplier(m.value.1)
    ensures v >= 0.0
  {
    match m
    case None => 0.0
    case Some((num, unit)) =>
      match ParseDecimal(num)
      case None => 0.0
      case Some(speed) =>
        var factor := Multiplier(unit);
        MulNonNegative(speed, factor);
        speed * factor
  }

  lemma MulNonNegative(x: real, m: real)
    requires x >= 0.0 && m >= 0.0
    ensures x * m >= 0.0
  {
  }

  /** Seconds left: absent unless the ETA pattern matched, then the reading of its text. */
  function EtaField(line: string): (r: Option<nat>)
    ensures EtaMatch(line).None? ==> r.None?
    ensures EtaMatch(line).Some? ==> r == ParseEta(EtaMatch(line).value)
  {
    match EtaMatch(line)
    case None => None
    case Some(text) => ParseEta(text)
  }

  /** The sample one stdout line produces, if any. */
  function ParseProgressLine(line: string): (r: Option<ProgressInfo>)
    ensures r.Some? ==> PercentSearch(line).Some? && ParseDecimal(PercentSearch(line).value.1) == Some(r.value.percentage)
    ensures r.Some? ==> (r.value.totalBytes, r.value.downloadedBytes) == SizeFields(line, r.value.percentage)
    ensures r.Some? ==> r.value.speed == SpeedField(line) && r.value.eta == EtaField(line)
    ensures r.Some? ==> r.value.percentage >= 0.0 && r.value.speed >= 0.0
    ensures r.Some? ==> r.value.totalBytes <= U64_MAX && r.value.downloadedBytes <= U64_MAX
    ensures r.Some? && r.value.percentage <= 100.0 ==> r.value.downloadedBytes <= r.value.totalBytes
  {
    match PercentSearch(line)
    case None => None
    case Some((_, text)) =>
      match ParseDecimal(text)
      case None => None
      case Some(percentage) =>
        var (total, downloaded) := SizeFields(line, percentage);
        Some(ProgressInfo(percentage, downloaded, total, SpeedField(line), EtaField(line)))
  }

  /** A line yields a sample exactly when the percentage pattern matches somewhere in it. */
  lemma {:induction false} SampleIffPercentMatch(line: string)
    ensures ParseProgressLine(line).Some? <==> exists i: nat, a: nat, e: nat :: PercentMatch(line, i, a, e)
  {
    match PercentSearch(line)
    case None =>
      var at := k => PercentAt(line, k);
      forall i: nat, a: nat, e: nat | PercentMatch(line, i, a, e) ensures at(i).Some? {
        PercentAtComplete(line, i, a, e);
      }
    case Some((i, text)) =>
      PercentAtSound(line, i);
      var a: nat, e: nat :| PercentMatch(line, i, a, e) && PercentAt(line, i) == Some(line[a..e]);
      ParsePercentText(line[a..e]);
  }

  /** The percentage is the value of the leftmost match's group. */
  lemma {:induction false} SamplePercentage(line: string, i: nat, a: nat, e: nat)
    requires PercentMatch(line, i, a, e)
    requires forall j: nat, b: nat, f: nat :: j < i ==> !PercentMatch(line, j, b, f)
    ensures ParseProgressLine(line).Some?
    ensures ParseDecimal(line[a..e]).Some? && ParseProgressLine(line).value.percentage == ParseDecimal(line[a..e]).value
  {
    PercentAtComplete(line, i, a, e);
    var at := k => PercentAt(line, k);
    forall j: nat | j < i ensures at(j).None? {
      PercentAtSound(line, j);
    }
    ParsePercentText(line[a..e]);
    LeftmostIs(|line|, at, 0, i);
  }

  // ---------------------------------------------------------------- the stdout loop

  /** The samples a sequence of stdout lines produces, in order. */
  function Samples(lines: seq<string>): seq<ProgressInfo>
  {
    SamplesBy(ParseProgressLine, lines)
  }

  /** The samples of `lines` under the line parser `parse`: each line's own, or none. */
  function SamplesBy(parse: string -> Option<ProgressInfo>, lines: seq<string>): seq<ProgressInfo>
  {
    if lines == [] then []
    else
      var rest := SamplesBy(parse, lines[..|lines| - 1]);
      match parse(lines[|lines| - 1])
      case None => rest
      case Some(p) => rest + [p]
  }

  /** Lines are parsed independently: the samples of a concatenation are the samples of its parts. */
  lemma {:induction false} SamplesAppend(a: seq<string>, b: seq<string>)
    ensures Samples(a + b) == Samples(a) + Samples(b)
  {
    SamplesByAppend(ParseProgressLine, a, b);
  }

  lemma {:induction false} SamplesByAppend(parse: string -> Option<ProgressInfo>, a: seq<string>, b: seq<string>)
    ensures SamplesBy(parse, a + b) == SamplesBy(parse, a) + SamplesBy(parse, b)
    decreases |b|
  {
    if b == [] {
      assert a + b == a;
    } else {
      var n := |b| - 1;
      SamplesByAppend(parse, a, b[..n]);
      assert (a + b)[..|a + b| - 1] == a + b[..n];
      assert (a + b)[|a + b| - 1] == b[n];
    }
  }

  /** One line contributes exactly its own sample, or nothing. */
  lemma {:induction false} SamplesOfOneLine(line: string)
    ensures Samples([line]) == if ParseProgressLine(line).Some? then [ParseProgressLine(line).value] else []
  {
    assert [line][..0] == [];
    assert SamplesBy(ParseProgressLine, [line][..0]) == [];
    assert [line][0] == line;
  }

  /** Reads stdout line by line and hands each sample to the callback (here: appends it). */
  method DriveProgress(lines: seq<string>) returns (delivered: seq<ProgressInfo>)
    ensures delivered == Samples(lines)
  {
    delivered := [];
    var i := 0;
    while i < |lines|
      invariant 0 <= i <= |lines|
      invariant delivered == Samples(lines[..i])
    {
      assert lines[..i + 1][..i] == lines[..i];
      var sample := ParseProgressLine(lines[i]);
      if sample.Some? {
        delivered := delivered + [sample.value];
      }
      i := i + 1;
    }
    assert lines[..i] == lines;
  }

  // ---------------------------------------------------------------- examples

  lemma EtaExample()
    ensures ParseEta("00" + ":" + "30") == Some(30)
  {
    TwoDigitValues();
    EtaMinutesSeconds("00", "30");
  }

  lemma EtaHoursExample()
    ensures ParseEta("01" + ":" + "00" + ":" + "05") == Some(3605)
  {
    TwoDigitValues();
    EtaHoursMinutesSeconds("01", "00", "05");
  }

  lemma TwoDigitValues()
    ensures DigitsValue("01") == 1 && DigitsValue("00") == 0 && DigitsValue("05") == 5 && DigitsValue("30") == 30
  {
    var h, m, s, t := "01", "00", "05", "30";
    assert h[..1] == "0" && m[..1] == "0" && s[..1] == "0" && t[..1] == "3";
  }

  lemma EtaOneFieldExample()
    ensures ParseEta("5") == None
  {
    assert Split("5", ':') == ["5"];
  }

  /** In "of 10.00MiB" the number group stops before the unit. */
  lemma SizeExample()
    ensures SizeAt("of 10.00MiB", 0) == Some(("10.00", "MiB"))
  {
    var line := "of " + "10.00" + "MiB";
    assert line == "of 10.00MiB";
    SizeExampleSkips(line);
    PiecesOfThree("of ", "10.00", "MiB");
    assert line[3] != '~';
    assert StartsWith(line[11..], "");
    assert |"of "| == 3 && |"10.00"| == 5;
    assert line[3..8] == "10.00" && line[8..] == "MiB";
    assert line[8..11] == "MiB";
    assert SkipWhile(line, 3 + 5, IsWordChar) == 11;
    assert NumberThenWord(line, 3, 5, "") == Some(("10.00", "MiB"));
  }

  lemma SizeExampleSkips(line: string)
    requires line == "of 10.00MiB"
    ensures StartsWith(line[0..], "of")
    ensures SkipWhile(line, 2, IsWhitespace) == 3 && SkipWhile(line, 3, IsWhitespace) == 3
    ensures SkipWhile(line, 3, IsDigitOrDot) == 8 && SkipWhile(line, 8, IsWordChar) == 11
  {
    assert StartsWith(line[0..], "of");
    assert SkipWhile(line, 2, IsWhitespace) == 3 by { SkipWhileAt(line, 2, IsWhitespace, 3); }
    assert SkipWhile(line, 3, IsWhitespace) == 3 by { SkipWhileAt(line, 3, IsWhitespace, 3); }
    assert SkipWhile(line, 3, IsDigitOrDot) == 8 by { SkipWhileAt(line, 3, IsDigitOrDot, 8); }
    SkipWhileAt(line, 8, IsWordChar, 11);
  }

  /** ... which is ten mebibytes. */
  lemma SizeValueExample()
    ensures ParseDecimal("10.00") == Some(10.0)
    ensures SatU64(10.0 * Multiplier("MiB")) == 10485760
  {
    var s := "10.00";
    assert AllDigitsOrDots(s);
    assert FirstIndex(s, '.') == 2;
    assert s[..2] == "10" && s[3..] == "00";
    TenAndNought();
  }

  lemma TenAndNought()
    ensures DigitsValue("10") == 10 && DigitsValue("00") == 0
  {
    var t, z := "10", "00";
    assert t[..1] == "1" && z[..1] == "0";
  }

  /** With no room for a unit after the digits, the number group gives its last digit to `\w+`. */
  lemma SizeBacktrackExample()
    ensures SizeAt("of 100 x", 0) == Some(("10", "0"))
  {
    var line := "of " + "10" + "0" + " x";
    assert line == "of 100 x";
    SizeBacktrackSkips(line);
    PiecesOfThree("of ", "10", "0" + " x");
    assert |"of "| == 3 && |"10"| == 2;
    assert line[3..5] == "10" && line[5..] == "0" + " x";
    assert line[5..6] == "0";
    assert line[3] != '~';
    assert StartsWith(line[6..], "");
    assert SkipWhile(line, 3 + 3, IsWordChar) == 6 && SkipWhile(line, 3 + 2, IsWordChar) == 6;
    assert NumberThenWord(line, 3, 3, "") == NumberThenWord(line, 3, 2, "");
    assert NumberThenWord(line, 3, 2, "") == Some(("10", "0"));
  }

  lemma SizeBacktrackSkips(line: string)
    requires line == "of 100 x"
    ensures StartsWith(line[0..], "of")
    ensures SkipWhile(line, 2, IsWhitespace) == 3 && SkipWhile(line, 3, IsWhitespace) == 3
    ensures SkipWhile(line, 3, IsDigitOrDot) == 6
    ensures SkipWhile(line, 6, IsWordChar) == 6 && SkipWhile(line, 5, IsWordChar) == 6
  {
    assert StartsWith(line[0..], "of");
    assert SkipWhile(line, 2, IsWhitespace) == 3 by { SkipWhileAt(line, 2, IsWhitespace, 3); }
    assert SkipWhile(line, 3, IsWhitespace) == 3 by { SkipWhileAt(line, 3, IsWhitespace, 3); }
    assert SkipWhile(line, 3, IsDigitOrDot) == 6 by {
      assert IsDigitOrDot(line[3]) && IsDigitOrDot(line[4]) && IsDigitOrDot(line[5]) && !IsDigitOrDot(line[6]);
      SkipWhileAt(line, 3, IsDigitOrDot, 6);
    }
    assert SkipWhile(line, 6, IsWordChar) == 6 by { SkipWhileAt(line, 6, IsWordChar, 6); }
    SkipWhileAt(line, 5, IsWordChar, 6);
  }


  // ---------------------------------------------------------------- a whole line

  /** A typical progress line of yt-dlp, in the pieces the patterns see. */
  const EXAMPLE_HEAD: string := "[download]  45.2% "
  const EXAMPLE_SIZE: string := "of ~150.00MiB"
  const EXAMPLE_SPEED: string := "at 2.50MiB/s"
  const EXAMPLE_ETA: string := "ETA 00:30"
  const EXAMPLE_LINE: string := EXAMPLE_HEAD + EXAMPLE_SIZE + " " + EXAMPLE_SPEED + " " + EXAMPLE_ETA

  /** 45.2% of ~150 MiB at 2.5 MiB/s, 30 seconds left. */
  lemma ParseProgressLineExample()
    ensures ParseProgressLine(EXAMPLE_LINE)
            == Some(ProgressInfo(45.2, 71093452, 157286400, 2621440.0, Some(30)))
  {
    ExampleFields(EXAMPLE_LINE);
  }

  lemma ExampleFields(line: string)
    requires line == EXAMPLE_LINE
    ensures ParseProgressLine(line) == Some(ProgressInfo(45.2, 71093452, 157286400, 2621440.0, Some(30)))
  {
    ExamplePercentage();
    ExampleSize(line);
    ExampleSpeed(line);
    ExampleEta(line);
    ExampleDecimals();
    assert SizeFields(line, 45.2) == (157286400, 71093452) by {
      assert SatU64(150.0 * 1048576.0) == 157286400;
      assert 157286400 as real * 45.2 / 100.0 == 71093452.8;
    }
    assert SpeedField(line) == 2.5 * 1048576.0;
  }

  lemma ExampleDecimals()
    ensures ParseDecimal("45.2") == Some(45.2)
    ensures ParseDecimal("150.00") == Some(150.0)
    ensures ParseDecimal("2.50") == Some(2.5)
    ensures Multiplier("MiB") == 1048576.0
  {
    var p, t, v := "45.2", "150.00", "2.50";
    assert AllDigitsOrDots(p) && AllDigitsOrDots(t) && AllDigitsOrDots(v);
    assert p[..2] == "45" && p[3..] == "2";
    assert t[..3] == "150" && t[4..] == "00";
    assert v[..1] == "2" && v[2..] == "50";
    ExampleDigits();
    DecimalOf("45.2", 2, 45, 2);
    DecimalOf("150.00", 3, 150, 0);
    DecimalOf("2.50", 1, 2, 50);
  }

  /** A text of digits with one dot at `d`, the digits around it reading `w` and `f`. */
  lemma {:induction false} DecimalOf(s: string, d: nat, w: nat, f: nat)
    requires AllDigitsOrDots(s) && d < |s| && |s| >= 2 && s[d] == '.' && '.' !in s[..d] && '.' !in s[d + 1..]
    requires DigitsValue(s[..d]) == w && DigitsValue(s[d + 1..]) == f
    ensures ParseDecimal(s) == Some(w as real + (f as real) / (Pow10(|s| - d - 1) as real))
  {
    assert '.' in s by {
      assert s[d] == '.';
    }
    assert FirstIndex(s, '.') == d;
  }

  lemma ExampleDigits()
    ensures DigitsValue("45") == 45 && DigitsValue("2") == 2 && DigitsValue("150") == 150
    ensures DigitsValue("00") == 0 && DigitsValue("50") == 50
  {
    var a, b, c, d, e := "45", "2", "150", "00", "50";
    assert a[..1] == "4" && c[..2] == "15" && c[..1] == "1" && d[..1] == "0" && e[..1] == "5";
  }

  lemma ExamplePercentage()
    ensures PercentSearch(EXAMPLE_LINE) == Some((0, "45.2"))
  {
    var line := EXAMPLE_LINE;
    assert line[..10] == DOWNLOAD_TAG;
    assert line[12..16] == "45.2";
    assert IsUnsignedDecimal(line[12..16]) by {
      var s := line[12..16];
      assert s[0] == '4' && s[1] == '5' && s[2] == '.' && s[3] == '2';
    }
    assert PercentMatch(line, 0, 12, 16);
    PercentAtComplete(line, 0, 12, 16);
    LeftmostIs(|line|, k => PercentAt(line, k), 0, 0);
  }

  lemma ExampleSize(line: string)
    requires line == EXAMPLE_LINE
    ensures SizeMatch(line) == Some(("150.00", "MiB"))
  {
    var rest := " " + EXAMPLE_SPEED + " " + EXAMPLE_ETA;
    assert line == EXAMPLE_HEAD + (EXAMPLE_SIZE + rest);
    assert 'f' !in EXAMPLE_HEAD;
    SizeAtExample(EXAMPLE_SIZE + rest, rest);
    SizeMatchAfter(EXAMPLE_HEAD, EXAMPLE_SIZE + rest);
  }

  lemma ExampleSpeed(line: string)
    requires line == EXAMPLE_LINE
    ensures SpeedMatch(line) == Some(("2.50", "MiB"))
  {
    var pre, rest := EXAMPLE_HEAD + EXAMPLE_SIZE + " ", " " + EXAMPLE_ETA;
    assert line == pre + (EXAMPLE_SPEED + rest);
    assert 't' !in EXAMPLE_HEAD && 't' !in EXAMPLE_SIZE && 't' !in " ";
    SpeedAtExample(EXAMPLE_SPEED + rest, rest);
    SpeedMatchAfter(pre, EXAMPLE_SPEED + rest);
  }

  lemma ExampleEta(line: string)
    requires line == EXAMPLE_LINE
    ensures EtaField(line) == Some(30)
  {
    var pre := EXAMPLE_HEAD + EXAMPLE_SIZE + " " + EXAMPLE_SPEED + " ";
    assert 'T' !in EXAMPLE_HEAD && 'T' !in EXAMPLE_SIZE && 'T' !in EXAMPLE_SPEED && 'T' !in " ";
    EtaAtExample(EXAMPLE_ETA);
    EtaMatchAfter(pre, EXAMPLE_ETA);
    EtaThirty("00:30");
  }

  lemma EtaThirty(t: string)
    requires t == "00:30"
    ensures ParseEta(t) == Some(30)
  {
    TwoDigitValues();
    assert t == "00" + ":" + "30";
    EtaMinutesSeconds("00", "30");
  }

  /** A size match right after a prefix in which no `of` can start is the leftmost one. */
  lemma {:induction false} SizeMatchAfter(pre: string, s: string)
    requires 'f' !in pre && (s != [] ==> s[0] != 'f') && SizeHere(s).Some?
    ensures SizeMatch(pre + s) == SizeHere(s)
  {
    var line := pre + s;
    NoStartInPrefix(pre, s, "of");
    assert line[|pre|..] == s;
    LeftmostIs(|line|, k => SizeAt(line, k), 0, |pre|);
  }

  /** A speed match right after a prefix in which no `at` can start is the leftmost one. */
  lemma {:induction false} SpeedMatchAfter(pre: string, s: string)
    requires 't' !in pre && (s != [] ==> s[0] != 't') && SpeedHere(s).Some?
    ensures SpeedMatch(pre + s) == SpeedHere(s)
  {
    var line := pre + s;
    NoStartInPrefix(pre, s, "at");
    assert line[|pre|..] == s;
    LeftmostIs(|line|, k => SpeedAt(line, k), 0, |pre|);
  }

  /** An ETA match right after a prefix in which no `ETA` can start is the leftmost one. */
  lemma {:induction false} EtaMatchAfter(pre: string, s: string)
    requires 'T' !in pre && (s != [] ==> s[0] != 'T') && EtaHere(s).Some?
    ensures EtaMatch(pre + s) == EtaHere(s)
  {
    var line := pre + s;
    NoStartInPrefix(pre, s, "ETA");
    assert line[|pre|..] == s;
    LeftmostIs(|line|, k => EtaAt(line, k), 0, |pre|);
  }

  /** No occurrence of `w` can start inside `pre` when its second character is not there. */
  lemma {:induction false} NoStartInPrefix(pre: string, s: string, w: string)
    requires |w| >= 2 && w[1] !in pre && (s != [] ==> s[0] != w[1])
    ensures forall j :: 0 <= j < |pre| ==> !StartsWith((pre + s)[j..], w)
  {
    var line := pre + s;
    forall j | 0 <= j < |pre| ensures !StartsWith(line[j..], w) {
      SecondOfPrefix(line[j..], w);
      if j + 1 < |pre| {
        assert line[j..][1] == pre[j + 1];
      } else if s != [] {
        assert line[j..][1] == s[0];
      }
    }
  }

  lemma SecondOfPrefix(t: string, w: string)
    requires |w| >= 2
    ensures StartsWith(t, w) ==> |t| >= 2 && t[1] == w[1]
  {
    if StartsWith(t, w) {
      assert t[..|w|][1] == t[1];
    }
  }

  lemma SizeAtExample(s: string, rest: string)
    requires s == EXAMPLE_SIZE + rest && rest != [] && rest[0] == ' '
    ensures SizeHere(s) == Some(("150.00", "MiB"))
  {
    LineSizeText(s, rest);
    LineSizeSkips(s);
    assert StartsWith(s[13..], "");
    assert NumberThenWord(s, 4, 6, "") == Some(("150.00", "MiB"));
  }

  lemma LineSizeText(s: string, rest: string)
    requires s == EXAMPLE_SIZE + rest && rest != [] && rest[0] == ' '
    ensures s[..2] == "of" && s[2] == ' ' && s[3] == '~' && s[13] == ' '
    ensures s[4..10] == "150.00" && s[10..13] == "MiB"
  {
    assert EXAMPLE_SIZE == "of ~" + "150.00" + "MiB";
    PiecesOfThree("of ~", "150.00", "MiB" + rest);
  }

  lemma LineSizeSkips(s: string)
    requires |s| >= 14 && s[..2] == "of" && s[2] == ' ' && s[3] == '~' && s[13] == ' '
    requires s[4..10] == "150.00" && s[10..13] == "MiB"
    ensures SkipWhile(s, 2, IsWhitespace) == 3 && SkipWhile(s, 4, IsWhitespace) == 4
    ensures SkipWhile(s, 4, IsDigitOrDot) == 10 && SkipWhile(s, 10, IsWordChar) == 13
  {
    SkipWhileAt(s, 2, IsWhitespace, 3);
    assert s[4] == '1';
    SkipWhileAt(s, 4, IsWhitespace, 4);
    forall k | 4 <= k < 10 ensures IsDigitOrDot(s[k]) {
      assert s[k] == s[4..10][k - 4];
    }
    assert s[10] == 'M';
    SkipWhileAt(s, 4, IsDigitOrDot, 10);
    forall k | 10 <= k < 13 ensures IsWordChar(s[k]) {
      assert s[k] == s[10..13][k - 10];
    }
    SkipWhileAt(s, 10, IsWordChar, 13);
  }

  lemma SpeedAtExample(s: string, rest: string)
    requires s == EXAMPLE_SPEED + rest
    ensures SpeedHere(s) == Some(("2.50", "MiB"))
  {
    LineSpeedText(s, rest);
    LineSpeedSkips(s);
    assert StartsWith(s[10..], "/s");
    assert NumberThenWord(s, 3, 4, "/s") == Some(("2.50", "MiB"));
  }

  lemma LineSpeedText(s: string, rest: string)
    requires s == EXAMPLE_SPEED + rest
    ensures s[..2] == "at" && s[2] == ' '
    ensures s[3..7] == "2.50" && s[7..10] == "MiB" && s[10..12] == "/s"
  {
    assert EXAMPLE_SPEED == "at " + "2.50" + "MiB" + "/s";
    PiecesOfThree("at ", "2.50", "MiB" + "/s" + rest);
  }

  lemma LineSpeedSkips(s: string)
    requires |s| >= 12 && s[..2] == "at" && s[2] == ' '
    requires s[3..7] == "2.50" && s[7..10] == "MiB" && s[10..12] == "/s"
    ensures SkipWhile(s, 2, IsWhitespace) == 3
    ensures SkipWhile(s, 3, IsDigitOrDot) == 7 && SkipWhile(s, 7, IsWordChar) == 10
  {
    assert s[3] == s[3..7][0];
    SkipWhileAt(s, 2, IsWhitespace, 3);
    LineSpeedNumber(s);
    LineSpeedUnit(s);
  }

  lemma LineSpeedNumber(s: string)
    requires |s| >= 12 && s[3..7] == "2.50" && s[7..10] == "MiB"
    ensures SkipWhile(s, 3, IsDigitOrDot) == 7
  {
    forall k | 3 <= k < 7 ensures IsDigitOrDot(s[k]) {
      assert s[k] == s[3..7][k - 3];
    }
    assert s[7] == s[7..10][0];
    SkipWhileAt(s, 3, IsDigitOrDot, 7);
  }

  lemma LineSpeedUnit(s: string)
    requires |s| >= 12 && s[7..10] == "MiB" && s[10..12] == "/s"
    ensures SkipWhile(s, 7, IsWordChar) == 10
  {
    forall k | 7 <= k < 10 ensures IsWordChar(s[k]) {
      assert s[k] == s[7..10][k - 7];
    }
    assert s[10] == s[10..12][0];
    SkipWhileAt(s, 7, IsWordChar, 10);
  }

  lemma EtaAtExample(s: string)
    requires s == EXAMPLE_ETA
    ensures EtaHere(s) == Some("00:30")
  {
    assert s[..3] == "ETA" && s[3] == ' ';
    SkipWhileAt(s, 3, IsWhitespace, 4);
    assert s[4..9] == "00:30";
    SkipWhileAt(s, 4, IsDigitOrColon, 9);
  }

}
