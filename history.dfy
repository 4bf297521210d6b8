/**
 * The download history: an append-only list of entries with queries, pruning and a CSV
 * export. Loading and saving the JSON file are outside the model; where a caller saves,
 * the outcome of the save is a parameter.
 */
module HistoryStore {
  import opened Wrappers
  import opened Text
  import opened Shared
  import opened Sequences

  /** One finished download. `timestamp` is the wall-clock time of creation in seconds. */
  datatype HistoryEntry = HistoryEntry(
    url: string,
    title: string,
    filePath: string,
    fileSize: nat,
    timestamp: int,
    quality: string,
    format: string)

  /** `HistoryEntry::new`; the current time is the parameter `now`. */
  function NewEntry(url: string, title: string, filePath: string, fileSize: nat, quality: string, format: string, now: int): HistoryEntry
  {
    HistoryEntry(url, title, filePath, fileSize, now, quality, format)
  }

  function TimestampOf(e: HistoryEntry): int { e.timestamp }

  /** Case-insensitive match of the query against the title or the URL. */
  predicate MatchesQuery(e: HistoryEntry, query: string)
  {
    Contains(ToLower(e.title), ToLower(query)) || Contains(ToLower(e.url), ToLower(query))
  }

  const SECONDS_PER_DAY: int := 86400

  class History {
    var entries: seq<HistoryEntry>

    constructor ()
      ensures entries == []
      ensures forall q :: Search(q) == []
    {
      entries := [];
    }

    /** Appends; every search then finds what it found before, followed by the new entry if it matches. */
    method AddEntry(entry: HistoryEntry)
      modifies this
      ensures entries == old(entries) + [entry]
      ensures forall q :: Search(q) == old(Search(q)) + (if MatchesQuery(entry, q) then [entry] else [])
    {
      ghost var before := entries;
      entries := entries + [entry];
      forall q ensures Search(q) == Filter(before, e => MatchesQuery(e, q)) + (if MatchesQuery(entry, q) then [entry] else []) {
        FilterAppend(before, [entry], e => MatchesQuery(e, q));
        assert Filter([entry], e => MatchesQuery(e, q)) == (if MatchesQuery(entry, q) then [entry] else []) by {
          assert [entry][1..] == [];
        }
      }
    }

    function Len(): nat
      reads this
    {
      |entries|
    }

    function IsEmpty(): (b: bool)
      reads this
      ensures b <==> Len() == 0
    {
      entries == []
    }

    function ContainsUrl(url: string): (b: bool)
      reads this
      ensures b <==> exists i :: 0 <= i < |entries| && entries[i].url == url
    {
      FirstWithUrl(entries, url).Some?
    }

    /** The first entry, in insertion order, whose URL is `url`. */
    function GetEntryByUrl(url: string): (r: Option<HistoryEntry>)
      reads this
      ensures r.Some? <==> ContainsUrl(url)
      ensures r.Some? ==> r.value.url == url
      ensures r.Some? ==> exists i :: 0 <= i < |entries| && entries[i] == r.value
                                    && forall j :: 0 <= j < i ==> entries[j].url != url
    {
      match FirstWithUrl(entries, url)
      case None => None
      case Some(i) => Some(entries[i])
    }

    /** The `limit` newest entries, newest first; nothing left out is newer than anything returned. */
    function GetRecent(limit: nat): (r: seq<HistoryEntry>)
      reads this
      ensures |r| == (if limit < |entries| then limit else |entries|)
      ensures SortedDesc(r, TimestampOf)
      ensures multiset(r) <= multiset(entries)
      ensures forall i, e :: 0 <= i < |r| && e in multiset(entries) - multiset(r) ==> e.timestamp <= r[i].timestamp
    {
      RecentEntries(entries, limit);
      Take(SortDesc(entries, TimestampOf), limit)
    }

    /** The entries whose title or URL contains the query, ignoring case, in insertion order. */
    function Search(query: string): (r: seq<HistoryEntry>)
      reads this
      ensures forall i :: 0 <= i < |r| ==> MatchesQuery(r[i], query)
      ensures forall e :: MatchesQuery(e, query) ==> multiset(r)[e] == multiset(entries)[e]
      ensures forall e :: e in entries && MatchesQuery(e, query) ==> e in r
      ensures forall e :: e in r ==> e in entries
    {
      var r := Filter(entries, e => MatchesQuery(e, query));
      forall e | MatchesQuery(e, query) ensures multiset(r)[e] == multiset(entries)[e] {
        FilterCount(entries, e => MatchesQuery(e, query), e);
      }
      forall e | e in entries && MatchesQuery(e, query) ensures e in r {
        assert e in multiset(entries);
      }
      r
    }

    method Clear()
      modifies this
      ensures entries == []
    {
      entries := [];
    }

    /** Keeps the entries strictly newer than `days` days before `now`, in order. */
    method ClearOlderThan(days: int, now: int)
      modifies this
      ensures entries == Filter(old(entries), (e: HistoryEntry) => e.timestamp > now - days * SECONDS_PER_DAY)
      ensures forall e :: e in old(entries) ==> (e in entries <==> e.timestamp > now - days * SECONDS_PER_DAY)
    {
      var cutoff := now - days * SECONDS_PER_DAY;
      ghost var before := entries;
      entries := Filter(entries, (e: HistoryEntry) => e.timestamp > cutoff);
      forall e | e in before && e.timestamp > cutoff ensures e in entries {
        FilterCount(before, (e: HistoryEntry) => e.timestamp > cutoff, e);
        assert e in multiset(before);
      }
    }

    /** Builds the CSV text line by line and writes it; a failed write is an Io error. */
    method ExportToCsv(timestampText: int -> string, write: Result<(), string>) returns (content: string, r: Result<(), YtdlError>)
      ensures content == CSV_HEADER + CsvRows(entries, timestampText)
      ensures r == if write.Ok? then Ok(()) else Err(Io(write.error))
    {
      var es := entries;
      var rows: string := [];
      var i := 0;
      while i < |es|
        invariant 0 <= i <= |es|
        invariant rows == CsvRows(es[..i], timestampText)
      {
        CsvRowsStep(es, i, timestampText);
        rows := rows + CsvLine(es[i], timestampText);
        i := i + 1;
      }
      assert es[..i] == es;
      content := CSV_HEADER + rows;
      r := if write.Ok? then Ok(()) else Err(Io(write.error));
    }
  }

  /** Index of the first entry with the given URL. */
  function FirstWithUrl(entries: seq<HistoryEntry>, url: string): (r: Option<nat>)
    ensures r.Some? ==> r.value < |entries| && entries[r.value].url == url
                        && forall j :: 0 <= j < r.value ==> entries[j].url != url
    ensures r.None? ==> forall j :: 0 <= j < |entries| ==> entries[j].url != url
  {
    if entries == [] then None
    else if entries[0].url == url then Some(0)
    else match FirstWithUrl(entries[1..], url)
      case None => None
      case Some(i) => Some(i + 1)
  }

  /** The `limit` newest of `entries`: a descending sub-multiset that no entry left out is newer than. */
  lemma {:induction false} RecentEntries(entries: seq<HistoryEntry>, limit: nat)
    ensures var r := Take(SortDesc(entries, TimestampOf), limit);
            && |r| == (if limit < |entries| then limit else |entries|)
            && SortedDesc(r, TimestampOf)
            && multiset(r) <= multiset(entries)
            && forall i, e :: 0 <= i < |r| && e in multiset(entries) - multiset(r) ==> e.timestamp <= r[i].timestamp
  {
    var sorted := SortDesc(entries, TimestampOf);
    var r := Take(sorted, limit);
    TakeIsSubMultiset(sorted, limit);
    TakeKeepsLargest(sorted, limit, TimestampOf);
    TakeKeepsOrder(sorted, limit, TimestampOf);
    forall i, e | 0 <= i < |r| && e in multiset(entries) - multiset(r)
      ensures e.timestamp <= r[i].timestamp
    {
      assert TimestampOf(e) <= TimestampOf(r[i]);
    }
  }

  /** After adding an entry its URL is known to the history. */
  lemma {:induction false} AddedUrlIsContained(before: seq<HistoryEntry>, entry: HistoryEntry)
    ensures FirstWithUrl(before + [entry], entry.url).Some?
  {
    assert (before + [entry])[|before|] == entry;
  }

  /** Lower-casing cannot produce a letter whose two cases are both absent. */
  lemma {:induction false} LowerLacks(s: string, c: char)
    requires 'a' <= c <= 'z' && c !in s && (c as int - 32) as char !in s
    ensures c !in ToLower(s)
  {
    forall k | 0 <= k < |s| ensures ToLower(s)[k] != c {
      assert s[k] != c && s[k] != (c as int - 32) as char;
    }
  }

  /** A query for "rust" matches the entry titled "Rust Tutorial", ignoring case. */
  lemma SearchFindsTitle()
    ensures MatchesQuery(NewEntry("https://youtube.com/watch?v=1", "Rust" + " Tutorial", "/tmp/1.mp4", 1024, "720p", "mp4", 0), "rust")
  {
    var title := ToLower("Rust" + " Tutorial");
    LowerRustQuery();
    LowerRustPrefix("Rust" + " Tutorial");
    ContainsAt(title, "rust", 0);
  }

  lemma LowerRustQuery()
    ensures ToLower("rust") == "rust"
  {
    var q := "rust";
    assert forall k :: 0 <= k < |q| ==> !('A' <= q[k] <= 'Z');
  }

  lemma {:induction false} LowerRustPrefix(t: string)
    requires |t| >= 4 && t[0] == 'R' && t[1] == 'u' && t[2] == 's' && t[3] == 't'
    ensures StartsWith(ToLower(t)[0..], "rust")
  {
    var l := ToLower(t);
    assert l[0] == 'r' && l[1] == 'u' && l[2] == 's' && l[3] == 't';
    assert l[0..][..4] == "rust";
  }

  /** A lower-case query whose first letter occurs in neither case in the title or URL does not match. */
  lemma {:induction false} MissingLetterNoMatch(e: HistoryEntry, query: string)
    requires query != [] && 'a' <= query[0] <= 'z' && ToLower(query) == query
    requires var upper := (query[0] as int - 32) as char;
             query[0] !in e.title && upper !in e.title && query[0] !in e.url && upper !in e.url
    ensures !MatchesQuery(e, query)
  {
    LowerLacks(e.title, query[0]);
    LowerLacks(e.url, query[0]);
    NotContainsWithoutFirst(ToLower(e.title), query);
    NotContainsWithoutFirst(ToLower(e.url), query);
  }

  /** ... and not one titled "Python Guide", whose title and URL hold no 'r' of either case. */
  lemma {:induction false} SearchSkipsOthers(e: HistoryEntry)
    requires e.title == "Python" + " Guide" && e.url == "https://" + "youtube.com/" + "watch?v=2"
    ensures !MatchesQuery(e, "rust")
  {
    LacksR("Python");
    LacksR(" Guide");
    LacksR("https://");
    LacksR("youtube.com/");
    LacksR("watch?v=2");
    WithoutRNoRust(e);
  }

  /** Without an 'r' of either case in title and URL, "rust" cannot match. */
  lemma {:induction false} WithoutRNoRust(e: HistoryEntry)
    requires 'r' !in e.title && 'R' !in e.title && 'r' !in e.url && 'R' !in e.url
    ensures !MatchesQuery(e, "rust")
  {
    LowerRustQuery();
    assert ('r' as int - 32) as char == 'R';
    MissingLetterNoMatch(e, "rust");
  }

  /** A short text without 'r' or 'R'. */
  lemma {:induction false} LacksR(t: string)
    requires forall k :: 0 <= k < |t| ==> t[k] != 'r' && t[k] != 'R'
    ensures 'r' !in t && 'R' !in t
  {
  }

  // ---------------------------------------------------------------- CSV export

  const CSV_HEADER: string := "URL,Title,File Path,File Size,Timestamp,Quality,Format\n"

  /** Every double quote doubled, as `str::replace("\"", "\"\"")`. */
  function Escape(s: string): (r: string)
    ensures '"' !in s ==> r == s
  {
    if s == [] then [] else (if s[0] == '"' then "\"\"" else [s[0]]) + Escape(s[1..])
  }

  function Quoted(s: string): string { "\"" + Escape(s) + "\"" }

  /** Cells separated by commas, the last one followed by a line feed. */
  function RowText(cells: seq<string>): string
    requires |cells| >= 1
  {
    if |cells| == 1 then cells[0] + "\n" else cells[0] + "," + RowText(cells[1..])
  }

  /**
   * The cells of one entry's line: the text fields quoted with inner quotes doubled, the
   * size bare, and the RFC 3339 timestamp (rendered by `timestampText`) quoted without escaping.
   */
  function CsvCells(e: HistoryEntry, timestampText: int -> string): seq<string>
  {
    [Quoted(e.url), Quoted(e.title), Quoted(e.filePath), NatToString(e.fileSize),
     "\"" + timestampText(e.timestamp) + "\"", Quoted(e.quality), Quoted(e.format)]
  }

  function CsvLine(e: HistoryEntry, timestampText: int -> string): string
  {
    RowText(CsvCells(e, timestampText))
  }

  function CsvRows(entries: seq<HistoryEntry>, timestampText: int -> string): string
  {
    if entries == [] then [] else CsvLine(entries[0], timestampText) + CsvRows(entries[1..], timestampText)
  }

  lemma {:induction false} CsvRowsAppend(entries: seq<HistoryEntry>, e: HistoryEntry, timestampText: int -> string)
    ensures CsvRows(entries + [e], timestampText) == CsvRows(entries, timestampText) + CsvLine(e, timestampText)
  {
    if entries != [] {
      CsvRowsAppend(entries[1..], e, timestampText);
      assert (entries + [e])[1..] == entries[1..] + [e];
    } else {
      assert entries + [e] == [e];
    }
  }

  lemma {:induction false} CsvRowsStep(entries: seq<HistoryEntry>, i: nat, timestampText: int -> string)
    requires i < |entries|
    ensures CsvRows(entries[..i + 1], timestampText) == CsvRows(entries[..i], timestampText) + CsvLine(entries[i], timestampText)
  {
    CsvRowsAppend(entries[..i], entries[i], timestampText);
    assert entries[..i + 1] == entries[..i] + [entries[i]];
  }

  // ---------------------------------------------------------------- reading the CSV back

  /** Reads the rest of a quoted field after its opening quote: `""` is one quote, a lone `"` closes it. */
  function ReadQuoted(t: string): (r: Option<(string, string)>)
    ensures r.Some? ==> |r.value.1| < |t|
  {
    if t == [] then None
    else if t[0] == '"' then
      if |t| > 1 && t[1] == '"' then
        match ReadQuoted(t[2..])
        case None => None
        case Some((f, rest)) => Some(("\"" + f, rest))
      else Some(([], t[1..]))
    else
      match ReadQuoted(t[1..])
      case None => None
      case Some((f, rest)) => Some(([t[0]] + f, rest))
  }

  /** An unquoted field runs up to the next comma or line feed. */
  function ReadBare(t: string): (r: (string, string))
    ensures r.0 + r.1 == t
    ensures ',' !in r.0 && '\n' !in r.0
    ensures r.1 != [] ==> r.1[0] == ',' || r.1[0] == '\n'
  {
    if t == [] || t[0] == ',' || t[0] == '\n' then ([], t)
    else
      var p := ReadBare(t[1..]);
      var head := [t[0]] + p.0;
      assert head + p.1 == [t[0]] + (p.0 + p.1) == t;
      assert ',' !in head && '\n' !in head by {
        assert forall k :: 1 <= k < |head| ==> head[k] == p.0[k - 1];
      }
      (head, p.1)
  }

  function ReadField(t: string): (r: Option<(string, string)>)
    ensures r.Some? ==> |r.value.1| <= |t|
  {
    if t != [] && t[0] == '"' then ReadQuoted(t[1..]) else Some(ReadBare(t))
  }

  /** Reads comma-separated fields up to and including the line feed that ends the record. */
  function ReadRecord(t: string): Option<(seq<string>, string)>
    decreases |t|
  {
    match ReadField(t)
    case None => None
    case Some((f, rest)) =>
      if rest != [] && rest[0] == ',' then
        match ReadRecord(rest[1..])
        case None => None
        case Some((fs, more)) => Some(([f] + fs, more))
      else if rest != [] && rest[0] == '\n' then Some(([f], rest[1..]))
      else None
  }

  function ReadRecords(t: string): Option<seq<seq<string>>>
    decreases |t|
  {
    if t == [] then Some([])
    else match ReadRecord(t)
      case None => None
      case Some((fields, more)) =>
        if |more| < |t| then
          match ReadRecords(more)
          case None => None
          case Some(records) => Some([fields] + records)
        else None
  }

  /** A cell that, followed by either separator, reads back as `value` and stops at the separator. */
  ghost predicate ReadsBackAs(cell: string, value: string)
  {
    forall sep: char, more: string {:trigger ReadField(cell + [sep] + more)} ::
      (sep == ',' || sep == '\n') ==> ReadField(cell + [sep] + more) == Some((value, [sep] + more))
  }

  lemma {:induction false} ReadQuotedEscape(s: string, rest: string)
    requires rest == [] || rest[0] != '"'
    ensures ReadQuoted(Escape(s) + "\"" + rest) == Some((s, rest))
  {
    if s == [] {
      assert Escape(s) + "\"" + rest == "\"" + rest;
      assert ("\"" + rest)[1..] == rest;
    } else {
      ReadQuotedEscape(s[1..], rest);
      ReadQuotedEscapeCons(s, rest);
    }
  }

  /** One more character in front of an escaped field that reads back. */
  lemma {:induction false} ReadQuotedEscapeCons(s: string, rest: string)
    requires s != [] && ReadQuoted(Escape(s[1..]) + "\"" + rest) == Some((s[1..], rest))
    ensures ReadQuoted(Escape(s) + "\"" + rest) == Some((s, rest))
  {
    var e := Escape(s[1..]);
    var head := if s[0] == '"' then "\"\"" else [s[0]];
    assert Escape(s) == head + e;
    AppendFour(head, e, "\"", rest);
    var tail := e + "\"" + rest;
    if s[0] == '"' {
      ReadQuotedDoubled(tail, s[1..], rest);
      assert "\"" + s[1..] == s;
    } else {
      ReadQuotedPlain(s[0], tail, s[1..], rest);
      assert [s[0]] + s[1..] == s;
    }
  }

  lemma AppendFour(a: string, b: string, c: string, d: string)
    ensures a + b + c + d == a + (b + c + d)
  {
  }

  /** A doubled quote inside a quoted field reads as one quote. */
  lemma {:induction false} ReadQuotedDoubled(tail: string, f: string, rest: string)
    requires ReadQuoted(tail) == Some((f, rest))
    ensures ReadQuoted("\"\"" + tail) == Some(("\"" + f, rest))
  {
    assert ("\"\"" + tail)[2..] == tail;
  }

  /** Any other character inside a quoted field reads as itself. */
  lemma {:induction false} ReadQuotedPlain(c: char, tail: string, f: string, rest: string)
    requires c != '"' && ReadQuoted(tail) == Some((f, rest))
    ensures ReadQuoted([c] + tail) == Some(([c] + f, rest))
  {
    assert ([c] + tail)[1..] == tail;
  }

  /** Quoting per section 2, rule 7 of RFC 4180 is undone by the reader. */
  lemma {:induction false} QuotedReadsBack(s: string)
    ensures ReadsBackAs(Quoted(s), s)
  {
    forall sep: char, more: string | sep == ',' || sep == '\n'
      ensures ReadField(Quoted(s) + [sep] + more) == Some((s, [sep] + more))
    {
      ReadQuotedEscape(s, [sep] + more);
      assert (Quoted(s) + [sep] + more)[1..] == Escape(s) + "\"" + ([sep] + more);
    }
  }

  lemma {:induction false} ReadBareDigits(d: string, tail: string)
    requires AllDigits(d)
    requires tail != [] && (tail[0] == ',' || tail[0] == '\n')
    ensures ReadBare(d + tail) == (d, tail)
  {
    if d != [] {
      ReadBareDigits(d[1..], tail);
      assert (d + tail)[1..] == d[1..] + tail;
      assert [d[0]] + d[1..] == d;
    } else {
      assert d + tail == tail;
    }
  }

  lemma {:induction false} NumberReadsBack(n: nat)
    ensures ReadsBackAs(NatToString(n), NatToString(n))
  {
    var d := NatToString(n);
    forall sep: char, more: string | sep == ',' || sep == '\n'
      ensures ReadField(d + [sep] + more) == Some((d, [sep] + more))
    {
      ReadBareDigits(d, [sep] + more);
      assert d + [sep] + more == d + ([sep] + more);
      assert IsDigit(d[0]);
    }
  }

  lemma {:induction false} RowReadsBack(cells: seq<string>, values: seq<string>, more: string)
    requires |cells| >= 1 && |cells| == |values|
    requires forall i :: 0 <= i < |cells| ==> ReadsBackAs(cells[i], values[i])
    ensures ReadRecord(RowText(cells) + more) == Some((values, more))
  {
    assert ReadsBackAs(cells[0], values[0]);
    if |cells| == 1 {
      RowOfOne(cells, values, more);
    } else {
      assert forall i :: 0 <= i < |cells| - 1 ==> ReadsBackAs(cells[1..][i], values[1..][i]) by {
        forall i | 0 <= i < |cells| - 1 ensures ReadsBackAs(cells[1..][i], values[1..][i]) {
          assert cells[1..][i] == cells[i + 1] && values[1..][i] == values[i + 1];
        }
      }
      RowReadsBack(cells[1..], values[1..], more);
      RowOfMore(cells, values, more);
    }
  }

  /** A one-cell row reads back as its one value. */
  lemma RowOfOne(cells: seq<string>, values: seq<string>, more: string)
    requires |cells| == 1 == |values| && ReadsBackAs(cells[0], values[0])
    ensures ReadRecord(RowText(cells) + more) == Some((values, more))
  {
    assert RowText(cells) + more == cells[0] + ['\n'] + more;
    RecordLastCell(cells[0], values[0], more);
    assert [values[0]] == values;
  }

  /** A row of several cells reads back as its first value followed by the rest of the row. */
  lemma RowOfMore(cells: seq<string>, values: seq<string>, more: string)
    requires |cells| >= 2 && |cells| == |values| && ReadsBackAs(cells[0], values[0])
    requires ReadRecord(RowText(cells[1..]) + more) == Some((values[1..], more))
    ensures ReadRecord(RowText(cells) + more) == Some((values, more))
  {
    var tail := RowText(cells[1..]) + more;
    assert RowText(cells) + more == cells[0] + [','] + tail;
    RecordNextCell(cells[0], values[0], tail, values[1..], more);
    assert [values[0]] + values[1..] == values;
  }

  /** A cell followed by a newline is the last field of its record. */
  lemma RecordLastCell(cell: string, value: string, more: string)
    requires ReadsBackAs(cell, value)
    ensures ReadRecord(cell + ['\n'] + more) == Some(([value], more))
  {
    assert ReadField(cell + ['\n'] + more) == Some((value, ['\n'] + more));
    assert (['\n'] + more)[1..] == more;
  }

  /** A cell followed by a comma heads the record read from what follows the comma. */
  lemma RecordNextCell(cell: string, value: string, tail: string, values: seq<string>, more: string)
    requires ReadsBackAs(cell, value) && ReadRecord(tail) == Some((values, more))
    ensures ReadRecord(cell + [','] + tail) == Some(([value] + values, more))
  {
    assert ReadField(cell + [','] + tail) == Some((value, [','] + tail));
    assert ([','] + tail)[1..] == tail;
  }

  /** The fields a reader of the exported file sees for one entry. */
  function CsvFields(e: HistoryEntry, timestampText: int -> string): seq<string>
  {
    [e.url, e.title, e.filePath, NatToString(e.fileSize), timestampText(e.timestamp), e.quality, e.format]
  }

  /** Each exported line reads back, by the quoting rules of section 2 of RFC 4180, as the entry's fields. */
  lemma {:induction false} CsvLineReadsBack(e: HistoryEntry, timestampText: int -> string, more: string)
    requires '"' !in timestampText(e.timestamp)
    ensures ReadRecord(CsvLine(e, timestampText) + more) == Some((CsvFields(e, timestampText), more))
  {
    var ts := timestampText(e.timestamp);
    assert Quoted(ts) == "\"" + ts + "\"";
    QuotedReadsBack(e.url);
    QuotedReadsBack(e.title);
    QuotedReadsBack(e.filePath);
    NumberReadsBack(e.fileSize);
    QuotedReadsBack(ts);
    QuotedReadsBack(e.quality);
    QuotedReadsBack(e.format);
    RowReadsBack(CsvCells(e, timestampText), CsvFields(e, timestampText), more);
  }

  function AllCsvFields(entries: seq<HistoryEntry>, timestampText: int -> string): seq<seq<string>>
  {
    if entries == [] then [] else [CsvFields(entries[0], timestampText)] + AllCsvFields(entries[1..], timestampText)
  }

  /** The exported rows read back as one record per entry, in history order. */
  lemma {:induction false} CsvRowsReadBack(entries: seq<HistoryEntry>, timestampText: int -> string)
    requires forall e :: e in entries ==> '"' !in timestampText(e.timestamp)
    ensures ReadRecords(CsvRows(entries, timestampText)) == Some(AllCsvFields(entries, timestampText))
  {
    if entries != [] {
      var rest := CsvRows(entries[1..], timestampText);
      CsvLineReadsBack(entries[0], timestampText, rest);
      CsvRowsReadBack(entries[1..], timestampText);
      var t := CsvRows(entries, timestampText);
      assert t == CsvLine(entries[0], timestampText) + rest;
      assert ReadRecord(t) == Some((CsvFields(entries[0], timestampText), rest));
      assert |CsvLine(entries[0], timestampText)| > 0;
      assert t != [] && |rest| < |t|;
    }
  }

}
