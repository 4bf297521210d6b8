/**
 * String helpers shared by the model: character classes, searching, trimming,
 * splitting and decimal rendering and parsing of numbers.
 * Strings are sequences of Unicode scalar values, as Rust's `char`.
 */
module Text {
  import opened Wrappers
  import opened Shared

  // ---------------------------------------------------------------- characters

  predicate IsDigit(c: char) { '0' <= c <= '9' }

  function DigitValue(c: char): (d: nat)
    requires IsDigit(c)
    ensures d < 10
  {
    (c as int - '0' as int) as nat
  }

  function DigitChar(d: nat): (c: char)
    requires d < 10
    ensures IsDigit(c) && DigitValue(c) == d
  {
    (('0' as int) + d) as char
  }

  predicate IsAsciiLetter(c: char) { ('a' <= c <= 'z') || ('A' <= c <= 'Z') }

  /** ASCII approximation of the regex class `\w`. */
  predicate IsWordChar(c: char) { IsAsciiLetter(c) || IsDigit(c) || c == '_' }

  /** The Unicode White_Space property: Rust's `char::is_whitespace`, `str::trim` and the regex class `\s`. */
  predicate IsWhitespace(c: char)
  {
    ('\t' <= c <= '\r') || c == ' ' || c == '\U{0085}' || c == '\U{00A0}' || c == '\U{1680}'
    || ('\U{2000}' <= c <= '\U{200A}') || c == '\U{2028}' || c == '\U{2029}'
    || c == '\U{202F}' || c == '\U{205F}' || c == '\U{3000}'
  }

  predicate AllDigits(s: string) { forall i :: 0 <= i < |s| ==> IsDigit(s[i]) }

  // ---------------------------------------------------------------- searching

  predicate StartsWith(s: string, p: string) { |p| <= |s| && s[..|p|] == p }

  predicate EndsWith(s: string, p: string) { |p| <= |s| && s[|s| - |p|..] == p }

  /** The first position at or after `i` where `p` occurs in `s`. */
  function FindFrom(s: string, p: string, i: nat): (r: Option<nat>)
    requires i <= |s|
    ensures r.Some? ==> i <= r.value <= |s| && StartsWith(s[r.value..], p)
    ensures r.Some? ==> forall k :: i <= k < r.value ==> !StartsWith(s[k..], p)
    ensures r.None? ==> forall k :: i <= k <= |s| ==> !StartsWith(s[k..], p)
    decreases |s| - i
  {
    if StartsWith(s[i..], p) then Some(i)
    else if i == |s| then None
    else FindFrom(s, p, i + 1)
  }

  /** Rust's `str::contains` with a string pattern. */
  predicate Contains(s: string, p: string) { FindFrom(s, p, 0).Some? }

  lemma {:induction false} ContainsAt(s: string, p: string, k: nat)
    requires k <= |s| && StartsWith(s[k..], p)
    ensures Contains(s, p)
  {
  }

  /** A pattern whose first character never occurs in `s` is not contained in it. */
  lemma {:induction false} NotContainsWithoutFirst(s: string, p: string)
    requires p != [] && p[0] !in s
    ensures !Contains(s, p)
  {
    forall k | 0 <= k <= |s| ensures !StartsWith(s[k..], p) {
      if k < |s| {
        assert s[k..][0] == s[k];
      }
    }
  }

  /** The index just past the maximal run of characters satisfying `f` that starts at `i`. */
  function SkipWhile(s: string, i: nat, f: char -> bool): (j: nat)
    requires i <= |s|
    ensures i <= j <= |s|
    ensures forall k :: i <= k < j ==> f(s[k])
    ensures j < |s| ==> !f(s[j])
    decreases |s| - i
  {
    if i < |s| && f(s[i]) then SkipWhile(s, i + 1, f) else i
  }

  /** The last position of character `c` in `s`. */
  function LastIndexOf(s: string, c: char): (r: Option<nat>)
    ensures r.Some? ==> r.value < |s| && s[r.value] == c && forall k :: r.value < k < |s| ==> s[k] != c
    ensures r.None? ==> forall k :: 0 <= k < |s| ==> s[k] != c
  {
    if s == [] then None
    else if s[|s| - 1] == c then Some(|s| - 1)
    else LastIndexOf(s[..|s| - 1], c)
  }

  // ---------------------------------------------------------------- trimming and case

  /** Where the run of whitespace at the start of `s`, scanned from `i` on, ends. */
  function LeadingSpace(s: string, i: nat): (a: nat)
    requires i <= |s| && forall k :: 0 <= k < i ==> IsWhitespace(s[k])
    ensures i <= a <= |s|
    ensures forall k :: 0 <= k < a ==> IsWhitespace(s[k])
    ensures a < |s| ==> !IsWhitespace(s[a])
    decreases |s| - i
  {
    if i < |s| && IsWhitespace(s[i]) then LeadingSpace(s, i + 1) else i
  }

  /** Where the run of whitespace at the end of `s`, scanned down from `j` to `lo`, starts. */
  function TrailingSpace(s: string, lo: nat, j: nat): (b: nat)
    requires lo <= j <= |s| && forall k :: j <= k < |s| ==> IsWhitespace(s[k])
    ensures lo <= b <= j
    ensures forall k :: b <= k < |s| ==> IsWhitespace(s[k])
    ensures b > lo ==> !IsWhitespace(s[b - 1])
  {
    if j > lo && IsWhitespace(s[j - 1]) then TrailingSpace(s, lo, j - 1) else j
  }

  /** `r` is `s[a..b]`, and everything of `s` outside that slice is whitespace. */
  predicate TrimmedSlice(s: string, r: string, a: nat, b: nat)
  {
    a <= b <= |s| && r == s[a..b]
    && (forall k :: 0 <= k < a ==> IsWhitespace(s[k]))
    && (forall k :: b <= k < |s| ==> IsWhitespace(s[k]))
  }

  /** Rust's `str::trim`: both ends lose their whitespace, nothing else changes. */
  function Trim(s: string): (r: string)
    ensures r == [] || (!IsWhitespace(r[0]) && !IsWhitespace(r[|r| - 1]))
    ensures exists a, b :: TrimmedSlice(s, r, a, b)
  {
    var a := LeadingSpace(s, 0);
    var b := TrailingSpace(s, a, |s|);
    assert TrimmedSlice(s, s[a..b], a, b);
    s[a..b]
  }

  function ToLowerChar(c: char): (d: char)
    ensures 'A' <= c <= 'Z' ==> d as int == c as int + 32
    ensures !('A' <= c <= 'Z') ==> d == c
  {
    if 'A' <= c <= 'Z' then (c as int + 32) as char else c
  }

  /** ASCII approximation of Rust's `str::to_lowercase`. */
  function ToLower(s: string): (r: string)
    ensures |r| == |s| && forall k :: 0 <= k < |s| ==> r[k] == ToLowerChar(s[k])
  {
    if s == [] then [] else [ToLowerChar(s[0])] + ToLower(s[1..])
  }

  // ---------------------------------------------------------------- splitting

  /** Rust's `str::split` on one character: `n` separators give `n + 1` pieces. */
  function Split(s: string, sep: char): (parts: seq<string>)
    ensures |parts| >= 1
    ensures forall k :: 0 <= k < |parts| ==> sep !in parts[k]
    ensures (sep !in s) ==> parts == [s]
  {
    if sep !in s then [s]
    else
      var i := FirstIndex(s, sep);
      [s[..i]] + Split(s[i + 1..], sep)
  }

  function FirstIndex(s: string, c: char): (i: nat)
    requires c in s
    ensures i < |s| && s[i] == c && c !in s[..i]
  {
    if s[0] == c then 0 else assert c in s[1..]; 1 + FirstIndex(s[1..], c)
  }

  /** Joining the pieces of a split with the separator gives back the input. */
  lemma {:induction false} SplitJoin(s: string, sep: char)
    ensures Join(Split(s, sep), [sep]) == s
  {
    if sep in s {
      var i := FirstIndex(s, sep);
      SplitJoin(s[i + 1..], sep);
      assert s == s[..i] + [sep] + s[i + 1..];
    }
  }

  /** Splitting on ':' after a field of digits peels that field off. */
  lemma {:induction false} SplitDigits(a: string, rest: string)
    requires AllDigits(a)
    ensures Split(a + ":" + rest, ':') == [a] + Split(rest, ':')
  {
    var s := a + ":" + rest;
    assert ':' !in a;
    var i := FirstIndex(s, ':');
    assert s[|a|] == ':';
    assert forall j :: 0 <= j < |a| ==> s[j] == a[j];
    assert i == |a|;
    assert s[..i] == a;
    assert s[i + 1..] == rest;
  }

  lemma {:induction false} SplitTwoDigitFields(a: string, b: string)
    requires AllDigits(a) && AllDigits(b)
    ensures Split(a + ":" + b, ':') == [a, b]
  {
    SplitDigits(a, b);
    assert ':' !in b;
  }

  /** A short text checked character by character for the absence of `c`. */
  lemma Lacks(t: string, c: char)
    requires forall k :: 0 <= k < |t| ==> t[k] != c
    ensures c !in t
  {
  }

  /** The middle and last pieces of a three-piece concatenation, as slices of it. */
  lemma PiecesOfThree(a: string, b: string, c: string)
    ensures (a + b + c)[|a|..|a| + |b|] == b && (a + b + c)[|a| + |b|..] == c
  {
    assert (a + b + c)[|a| + |b|..] == c;
    assert (a + b + c)[|a|..|a| + |b|] == b;
  }

  lemma {:induction false} SplitThreeDigitFields(a: string, b: string, c: string)
    requires AllDigits(a) && AllDigits(b) && AllDigits(c)
    ensures Split(a + ":" + b + ":" + c, ':') == [a, b, c]
  {
    SplitTwoDigitFields(b, c);
    assert a + ":" + b + ":" + c == a + ":" + (b + ":" + c);
    SplitDigits(a, b + ":" + c);
  }

  function Join(parts: seq<string>, sep: string): string
  {
    if parts == [] then []
    else if |parts| == 1 then parts[0]
    else parts[0] + sep + Join(parts[1..], sep)
  }

  // ---------------------------------------------------------------- numbers

  /** Decimal rendering of a natural number, as Rust's `Display` for unsigned integers. */
  function NatToString(n: nat): (r: string)
    ensures |r| >= 1 && AllDigits(r)
    ensures r[0] == '0' ==> n == 0
    decreases n
  {
    if n < 10 then [DigitChar(n)] else NatToString(n / 10) + [DigitChar(n % 10)]
  }

  /** The value of a string of decimal digits. */
  function DigitsValue(s: string): nat
    requires AllDigits(s)
  {
    if s == [] then 0 else DigitsValue(s[..|s| - 1]) * 10 + DigitValue(s[|s| - 1])
  }

  lemma {:induction false} NatToStringRoundTrip(n: nat)
    ensures DigitsValue(NatToString(n)) == n
    decreases n
  {
    if n >= 10 {
      NatToStringRoundTrip(n / 10);
      var s := NatToString(n);
      assert s[..|s| - 1] == NatToString(n / 10);
    }
  }

  lemma {:induction false} NatToStringInjective(m: nat, n: nat)
    requires NatToString(m) == NatToString(n)
    ensures m == n
  {
    NatToStringRoundTrip(m);
    NatToStringRoundTrip(n);
  }

  /** Decimal rendering of an integer with a leading '-' for negative values. */
  function IntToString(i: int): string
  {
    if i >= 0 then NatToString(i) else "-" + NatToString(-i)
  }

  /** Reads back an optionally signed decimal integer. */
  function ParseInt(s: string): Option<int>
  {
    if s != [] && s[0] == '-' then
      (if |s| > 1 && AllDigits(s[1..]) then Some(-(DigitsValue(s[1..]) as int)) else None)
    else if s != [] && AllDigits(s) then Some(DigitsValue(s) as int)
    else None
  }

  lemma {:induction false} IntToStringRoundTrip(i: int)
    ensures ParseInt(IntToString(i)) == Some(i)
  {
    if i >= 0 {
      NatToStringRoundTrip(i);
    } else {
      NatToStringRoundTrip(-i);
      assert IntToString(i)[1..] == NatToString(-i);
    }
  }

  /**
   * Rust's `from_str` for an unsigned integer type whose largest value is `max`: an optional
   * '+', then one or more ASCII digits, whose value must not exceed `max`.
   */
  function ParseUnsigned(s: string, max: nat): (r: Option<nat>)
    ensures r.Some? ==> r.value <= max
    ensures r.Some? ==> s != [] && (IsDigit(s[0]) || s[0] == '+')
  {
    var digits := if s != [] && s[0] == '+' then s[1..] else s;
    if digits != [] && AllDigits(digits) && DigitsValue(digits) <= max then Some(DigitsValue(digits)) else None
  }

  /** `u64::from_str`, and `usize::from_str` on a 64-bit target. */
  function ParseU64(s: string): (r: Option<nat>)
    ensures r.Some? ==> r.value <= U64_MAX
    ensures r.Some? ==> s != [] && (IsDigit(s[0]) || s[0] == '+')
  {
    ParseUnsigned(s, U64_MAX)
  }

  function ParseU32(s: string): (r: Option<nat>)
    ensures r.Some? ==> r.value <= U32_MAX
  {
    ParseUnsigned(s, U32_MAX)
  }

  /** Every number in range is read back from its decimal rendering. */
  lemma {:induction false} ParseUnsignedRoundTrip(n: nat, max: nat)
    requires n <= max
    ensures ParseUnsigned(NatToString(n), max) == Some(n)
  {
    NatToStringRoundTrip(n);
    assert IsDigit(NatToString(n)[0]);
  }

  lemma {:induction false} ParseU64RoundTrip(n: nat)
    requires n <= U64_MAX
    ensures ParseU64(NatToString(n)) == Some(n)
  {
    ParseUnsignedRoundTrip(n, U64_MAX);
  }

  /** A number beyond the type's range is refused. */
  lemma {:induction false} ParseUnsignedOverflow(n: nat, max: nat)
    requires n > max
    ensures ParseUnsigned(NatToString(n), max) == None
  {
    NatToStringRoundTrip(n);
    assert IsDigit(NatToString(n)[0]);
  }

  // ---------------------------------------------------------------- digit grouping

  /**
   * A string of digits cut into groups of three from the right, joined with commas (the
   * `rchunks(3)`, `rev`, `join(",")` idiom of the source).
   */
  function GroupThousands(s: string): string
    decreases |s|
  {
    if |s| <= 3 then s else GroupThousands(s[..|s| - 3]) + "," + s[|s| - 3..]
  }

  /** `s` with every occurrence of `c` removed. */
  function Without(s: string, c: char): (r: string)
    ensures c !in r
  {
    if s == [] then [] else (if s[0] == c then [] else [s[0]]) + Without(s[1..], c)
  }

  lemma {:induction false} WithoutAppend(a: string, b: string, c: char)
    ensures Without(a + b, c) == Without(a, c) + Without(b, c)
  {
    if a == [] {
      assert a + b == b;
    } else {
      var h := if a[0] == c then [] else [a[0]];
      assert Without(a + b, c) == h + Without(a[1..] + b, c) by {
        assert (a + b)[0] == a[0];
        assert (a + b)[1..] == a[1..] + b;
      }
      WithoutAppend(a[1..], b, c);
      assert h + (Without(a[1..], c) + Without(b, c)) == (h + Without(a[1..], c)) + Without(b, c);
    }
  }

  lemma {:induction false} WithoutAbsent(s: string, c: char)
    requires c !in s
    ensures Without(s, c) == s
  {
    if s != [] {
      WithoutAbsent(s[1..], c);
      assert s == [s[0]] + s[1..];
    }
  }

  /** Removing the commas from a grouped number gives back its digits. */
  lemma {:induction false} GroupThousandsRemovesCommas(s: string)
    requires ',' !in s
    ensures Without(GroupThousands(s), ',') == s
    decreases |s|
  {
    if |s| > 3 {
      var head, tail := s[..|s| - 3], s[|s| - 3..];
      assert ',' !in head && ',' !in tail;
      var g := GroupThousands(head);
      assert GroupThousands(s) == (g + ",") + tail;
      GroupThousandsRemovesCommas(head);
      assert Without(g + ",", ',') == head by {
        WithoutAppend(g, ",", ',');
        assert Without(",", ',') == [];
      }
      assert Without(tail, ',') == tail by {
        WithoutAbsent(tail, ',');
      }
      WithoutAppend(g + ",", tail, ',');
      assert head + tail == s;
    } else {
      WithoutAbsent(s, ',');
    }
  }

  /** Splitting before a last piece that holds no separator splits off exactly that piece. */
  lemma {:induction false} SplitLast(a: string, b: string, sep: char)
    requires sep !in b
    ensures Split(a + [sep] + b, sep) == Split(a, sep) + [b]
    decreases |a|
  {
    var x := a + [sep] + b;
    if sep in a {
      var j := FirstIndex(a, sep);
      var head, rest := a[..j], a[j + 1..];
      SplitAtFirstOfHead(a, b, sep);
      SplitLast(rest, b, sep);
      assert Split(a, sep) == [head] + Split(rest, sep);
      assert [head] + (Split(rest, sep) + [b]) == [head] + Split(rest, sep) + [b];
    } else {
      assert x[|a|] == sep;
      var i := FirstIndex(x, sep);
      assert x[..|a|] == a;
      assert i == |a|;
      assert x[i + 1..] == b;
      assert Split(x, sep) == [x[..i]] + Split(x[i + 1..], sep);
    }
  }

  /** A separator inside `a` is the first one of `a + [sep] + b` too. */
  lemma SplitAtFirstOfHead(a: string, b: string, sep: char)
    requires sep in a
    ensures var j := FirstIndex(a, sep);
            Split(a + [sep] + b, sep) == [a[..j]] + Split(a[j + 1..] + [sep] + b, sep)
  {
    var x := a + [sep] + b;
    assert x[|a|] == sep;
    assert sep in x;
    var i := FirstIndex(x, sep);
    var j := FirstIndex(a, sep);
    assert x[..j] == a[..j];
    assert x[j] == sep;
    assert sep !in x[..j];
    assert i == j;
    assert x[i + 1..] == a[j + 1..] + [sep] + b;
    assert Split(x, sep) == [x[..i]] + Split(x[i + 1..], sep);
  }


  /** The groups: the first holds one to three digits, every later one exactly three. */
  lemma {:induction false} GroupThousandsPieces(s: string)
    requires s != [] && ',' !in s
    ensures var p := Split(GroupThousands(s), ',');
            1 <= |p[0]| <= 3 && (forall k :: 1 <= k < |p| ==> |p[k]| == 3)
    decreases |s|
  {
    if |s| > 3 {
      var head, tail := s[..|s| - 3], s[|s| - 3..];
      assert ',' !in head && ',' !in tail;
      GroupThousandsPieces(head);
      SplitLast(GroupThousands(head), tail, ',');
      assert GroupThousands(s) == GroupThousands(head) + [','] + tail;
    }
  }

  // ---------------------------------------------------------------- UTF-8 offsets

  /** The length of a character's UTF-8 encoding. */
  function Utf8Len(c: char): (n: nat)
    ensures 1 <= n <= 4 && (n == 1 <==> c as int < 0x80)
  {
    if c as int < 0x80 then 1 else if c as int < 0x800 then 2 else if c as int < 0x10000 then 3 else 4
  }

  /** Rust's `str::len`: the length in UTF-8 bytes. */
  function ByteLen(s: string): (n: nat)
    ensures n >= |s|
  {
    if s == [] then 0 else Utf8Len(s[0]) + ByteLen(s[1..])
  }

  predicate IsAscii(s: string)
  {
    forall i :: 0 <= i < |s| ==> s[i] as int < 0x80
  }

  /** The character index at byte offset `b`, when `b` is a character boundary of `s`. */
  function CharIndexAt(s: string, b: nat): (r: Option<nat>)
    ensures r.Some? ==> r.value <= |s| && ByteLen(s[..r.value]) == b
  {
    if b == 0 then (assert s[..0] == []; Some(0))
    else if s == [] || b < Utf8Len(s[0]) then None
    else match CharIndexAt(s[1..], b - Utf8Len(s[0]))
      case None => None
      case Some(k) =>
        assert s[..k + 1][1..] == s[1..][..k];
        Some(k + 1)
  }

  /** ASCII text has one byte per character. */
  lemma {:induction false} AsciiByteLen(s: string)
    requires IsAscii(s)
    ensures ByteLen(s) == |s|
  {
    if s != [] {
      assert IsAscii(s[1..]) by {
        forall i | 0 <= i < |s[1..]| ensures s[1..][i] as int < 0x80 {
          assert s[1..][i] == s[i + 1];
        }
      }
      AsciiByteLen(s[1..]);
    }
  }

  /** In ASCII text every offset up to the length is a boundary, at the same index. */
  lemma {:induction false} AsciiCharIndex(s: string, b: nat)
    requires IsAscii(s) && b <= |s|
    ensures CharIndexAt(s, b) == Some(b)
  {
    if b > 0 {
      assert IsAscii(s[1..]) by {
        forall i | 0 <= i < |s[1..]| ensures s[1..][i] as int < 0x80 {
          assert s[1..][i] == s[i + 1];
        }
      }
      AsciiCharIndex(s[1..], b - 1);
    }
  }


  lemma AsciiBoundary(s: string, b: nat)
    ensures IsAscii(s) && b <= |s| ==> CharIndexAt(s, b) == Some(b)
  {
    if IsAscii(s) && b <= |s| {
      AsciiCharIndex(s, b);
    }
  }

  /** Rust's `String::insert`: `c` goes in at byte offset `b`; None where Rust panics, off a character boundary. */
  function InsertAtByte(s: string, b: nat, c: char): (r: Option<string>)
    ensures r.Some? <==> CharIndexAt(s, b).Some?
    ensures r.Some? ==> |r.value| == |s| + 1
    ensures IsAscii(s) && b <= |s| ==> r == Some(s[..b] + [c] + s[b..])
  {
    AsciiBoundary(s, b);
    match CharIndexAt(s, b)
    case None => None
    case Some(k) => Some(s[..k] + [c] + s[k..])
  }

  /**
   * Rust's `String::remove`: the character at byte offset `b` goes; None where Rust panics,
   * off a character boundary or at the end.
   */
  function RemoveAtByte(s: string, b: nat): (r: Option<string>)
    ensures r.Some? ==> |r.value| + 1 == |s|
    ensures IsAscii(s) && b < |s| ==> r == Some(s[..b] + s[b + 1..])
  {
    AsciiBoundary(s, b);
    match CharIndexAt(s, b)
    case None => None
    case Some(k) => if k < |s| then Some(s[..k] + s[k + 1..]) else None
  }

  /** Rust's `{:02}`: zero-padded to at least two digits. */
  function Pad2(n: nat): (r: string)
    ensures |r| >= 2 && AllDigits(r)
    ensures n < 100 ==> |r| == 2
  {
    NatToStringLength(n);
    if n < 10 then "0" + NatToString(n) else NatToString(n)
  }

  lemma {:induction false} NatToStringLength(n: nat)
    ensures n < 10 <==> |NatToString(n)| == 1
    ensures 10 <= n < 100 ==> |NatToString(n)| == 2
  {
    if n >= 10 {
      NatToStringLength(n / 10);
    }
  }

  lemma {:induction false} Pad2RoundTrip(n: nat)
    ensures DigitsValue(Pad2(n)) == n
  {
    NatToStringRoundTrip(n);
    if n < 10 {
      var s := Pad2(n);
      assert s[..|s| - 1] == "0";
    }
  }

}
