/**
 * The CSV parser: delimiter detection on the header line, a quote-aware field
 * tokenizer, rows keyed by header name, majority-vote column types from the
 * first rows, and the flow of events a parse emits.
 */
module CsvParser {
  import opened Options
  import opened Text
  import opened Votes
  import opened ParsedData
  import opened ParseEvents

  const COMMON_DELIMITERS: seq<char> := [',', ';', '\t', '|']
  const SAMPLE_SIZE_FOR_TYPE_INFERENCE: nat := 10

  const QUOTE: char := '"'

  // ---------------------------------------------------------------------------
  // Delimiter detection
  // ---------------------------------------------------------------------------

  /** `detectDelimiter`: the candidate occurring most often in the header, the earliest
      candidate on a tie, and `,` when no candidate occurs at all. */
  function DetectDelimiter(header: string): (d: char)
    ensures d in COMMON_DELIMITERS
    ensures (forall c | c in COMMON_DELIMITERS :: Count(header, c) == 0) ==> d == ','
    ensures (exists c | c in COMMON_DELIMITERS :: Count(header, c) > 0) ==>
              exists k | 0 <= k < |COMMON_DELIMITERS| :: IsFirstMax(COMMON_DELIMITERS, header, k) && d == COMMON_DELIMITERS[k]
  {
    var k := FirstMaxIndex(COMMON_DELIMITERS, header);
    if Count(header, COMMON_DELIMITERS[k]) > 0 then COMMON_DELIMITERS[k] else ','
  }

  // ---------------------------------------------------------------------------
  // Field tokenizer
  // ---------------------------------------------------------------------------

  /** The untrimmed fields `parseLine` collects from the unread part `rest` of a line,
      given whether it is inside quotes, the field text collected so far and the
      fields finished before. */
  function Scan(rest: string, delimiter: char, inQuotes: bool, current: string, acc: seq<string>): seq<string>
    decreases |rest|
  {
    if |rest| == 0 then acc + [current]
    else
      var c := rest[0];
      if c == QUOTE && !inQuotes then Scan(rest[1..], delimiter, true, current, acc)
      else if c == QUOTE && inQuotes then
        if |rest| > 1 && rest[1] == QUOTE then Scan(rest[2..], delimiter, true, current + [QUOTE], acc)
        else Scan(rest[1..], delimiter, false, current, acc)
      else if c == delimiter && !inQuotes then Scan(rest[1..], delimiter, false, "", acc + [current])
      else Scan(rest[1..], delimiter, inQuotes, current + [c], acc)
  }

  function RawFields(line: string, delimiter: char): seq<string> {
    Scan(line, delimiter, false, "", [])
  }

  function MapTrim(fields: seq<string>): (r: seq<string>)
    ensures |r| == |fields|
    ensures forall i | 0 <= i < |fields| :: r[i] == Trim(fields[i])
  {
    if |fields| == 0 then [] else [Trim(fields[0])] + MapTrim(fields[1..])
  }

  /** The fields of a line, each trimmed. */
  function SplitFields(line: string, delimiter: char): seq<string> {
    MapTrim(RawFields(line, delimiter))
  }

  lemma MapTrimSnoc(fields: seq<string>, x: string)
    ensures MapTrim(fields + [x]) == MapTrim(fields) + [Trim(x)]
  {
  }

  /** `parseLine`: a scan over the line with a quote flag and a field buffer. A quote
      outside quotes opens them; inside, a doubled quote stands for one quote and a
      single quote closes them; a delimiter outside quotes ends the field; every field
      is trimmed. */
  method ParseLine(line: string, delimiter: char) returns (result: seq<string>)
    ensures result == SplitFields(line, delimiter)
  {
    result := [];
    ghost var raw: seq<string> := [];
    var current := "";
    var inQuotes := false;
    var i := 0;
    while i < |line|
      invariant 0 <= i <= |line|
      invariant result == MapTrim(raw)
      invariant Scan(line[i..], delimiter, inQuotes, current, raw) == RawFields(line, delimiter)
    {
      var c := line[i];
      assert line[i..][0] == c;
      if c == QUOTE && !inQuotes {
        inQuotes := true;
      } else if c == QUOTE && inQuotes {
        if i + 1 < |line| && line[i + 1] == QUOTE {
          assert line[i..][1] == QUOTE && line[i..][2..] == line[i + 2..];
          current := current + [QUOTE];
          i := i + 1;
        } else {
          inQuotes := false;
        }
      } else if c == delimiter && !inQuotes {
        MapTrimSnoc(raw, current);
        result := result + [Trim(current)];
        raw := raw + [current];
        current := "";
      } else {
        current := current + [c];
      }
      assert line[i..][1..] == line[i + 1..];
      i := i + 1;
    }
    MapTrimSnoc(raw, current);
    result := result + [Trim(current)];
  }

  // ---------------------------------------------------------------------------
  // Properties of the tokenizer
  // ---------------------------------------------------------------------------

  /** Reference count: the delimiters preceded by an even number of quote characters. */
  function OutsideCount(s: string, delimiter: char, odd: bool): nat {
    if |s| == 0 then 0
    else
      (if s[0] == delimiter && !odd then 1 else 0)
      + OutsideCount(s[1..], delimiter, if s[0] == QUOTE then !odd else odd)
  }

  lemma {:induction false} ScanLength(rest: string, delimiter: char, inQuotes: bool, current: string, acc: seq<string>)
    requires delimiter != QUOTE
    ensures |Scan(rest, delimiter, inQuotes, current, acc)| == |acc| + 1 + OutsideCount(rest, delimiter, inQuotes)
    decreases |rest|
  {
    if |rest| > 0 {
      var c := rest[0];
      if c == QUOTE && !inQuotes {
        ScanLength(rest[1..], delimiter, true, current, acc);
      } else if c == QUOTE && inQuotes {
        if |rest| > 1 && rest[1] == QUOTE {
          ScanLength(rest[2..], delimiter, true, current + [QUOTE], acc);
          assert rest[1..][1..] == rest[2..];
        } else {
          ScanLength(rest[1..], delimiter, false, current, acc);
        }
      } else if c == delimiter && !inQuotes {
        ScanLength(rest[1..], delimiter, false, "", acc + [current]);
      } else {
        ScanLength(rest[1..], delimiter, inQuotes, current + [c], acc);
      }
    }
  }

  /** A line has one field more than it has delimiters outside quotes; in particular
      it always has a field, so the "could not parse header row" error never fires. */
  lemma FieldCount(line: string, delimiter: char)
    requires delimiter != QUOTE
    ensures |SplitFields(line, delimiter)| == 1 + OutsideCount(line, delimiter, false)
  {
    ScanLength(line, delimiter, false, "", []);
  }

  /** Quoting for CSV: doubles every quote character. */
  function Escape(x: string): string {
    if |x| == 0 then "" else (if x[0] == QUOTE then [QUOTE, QUOTE] else [x[0]]) + Escape(x[1..])
  }

  function EncodeField(x: string): string {
    [QUOTE] + Escape(x) + [QUOTE]
  }

  /** The line that writes each field quoted, separated by the delimiter. */
  function EncodeRow(fields: seq<string>, delimiter: char): string
    requires |fields| > 0
  {
    if |fields| == 1 then EncodeField(fields[0])
    else EncodeField(fields[0]) + [delimiter] + EncodeRow(fields[1..], delimiter)
  }

  // One step of the scan each, for the proofs below.

  lemma ScanOrdinary(rest: string, delimiter: char, inQuotes: bool, current: string, acc: seq<string>)
    requires |rest| > 0 && rest[0] != QUOTE && (rest[0] != delimiter || inQuotes)
    ensures Scan(rest, delimiter, inQuotes, current, acc) == Scan(rest[1..], delimiter, inQuotes, current + [rest[0]], acc)
  {
  }

  lemma ScanOpen(rest: string, delimiter: char, current: string, acc: seq<string>)
    requires |rest| > 0 && rest[0] == QUOTE
    ensures Scan(rest, delimiter, false, current, acc) == Scan(rest[1..], delimiter, true, current, acc)
  {
  }

  lemma ScanEscaped(rest: string, delimiter: char, current: string, acc: seq<string>)
    requires |rest| > 1 && rest[0] == QUOTE && rest[1] == QUOTE
    ensures Scan(rest, delimiter, true, current, acc) == Scan(rest[2..], delimiter, true, current + [QUOTE], acc)
  {
  }

  lemma ScanClose(rest: string, delimiter: char, current: string, acc: seq<string>)
    requires |rest| > 0 && rest[0] == QUOTE && (|rest| == 1 || rest[1] != QUOTE)
    ensures Scan(rest, delimiter, true, current, acc) == Scan(rest[1..], delimiter, false, current, acc)
  {
  }

  lemma ScanDelimiter(rest: string, delimiter: char, current: string, acc: seq<string>)
    requires |rest| > 0 && rest[0] == delimiter && delimiter != QUOTE
    ensures Scan(rest, delimiter, false, current, acc) == Scan(rest[1..], delimiter, false, "", acc + [current])
  {
  }

  lemma {:induction false} ScanQuoted(x: string, rest: string, delimiter: char, current: string, acc: seq<string>)
    requires delimiter != QUOTE
    requires rest == [] || rest[0] == delimiter
    ensures Scan(Escape(x) + [QUOTE] + rest, delimiter, true, current, acc) == Scan(rest, delimiter, false, current + x, acc)
    decreases |x|
  {
    var s := Escape(x) + [QUOTE] + rest;
    if |x| == 0 {
      assert Scan(s, delimiter, true, current, acc) == Scan(rest, delimiter, false, current, acc) by {
        assert s == [QUOTE] + rest;
        assert s[1..] == rest;
        ScanClose(s, delimiter, current, acc);
      }
      assert current + x == current;
    } else {
      var tail := Escape(x[1..]) + [QUOTE] + rest;
      assert Scan(s, delimiter, true, current, acc) == Scan(tail, delimiter, true, current + [x[0]], acc) by {
        if x[0] == QUOTE {
          assert s == [QUOTE, QUOTE] + tail;
          assert s[2..] == tail;
          ScanEscaped(s, delimiter, current, acc);
        } else {
          assert s == [x[0]] + tail;
          assert s[1..] == tail;
          ScanOrdinary(s, delimiter, true, current, acc);
        }
      }
      ScanQuoted(x[1..], rest, delimiter, current + [x[0]], acc);
      assert current + [x[0]] + x[1..] == current + x;
    }
  }

  /** A quoted field followed by the end of the line or a delimiter. */
  lemma ScanField(x: string, rest: string, delimiter: char, acc: seq<string>)
    requires delimiter != QUOTE
    requires rest == [] || rest[0] == delimiter
    ensures Scan(EncodeField(x) + rest, delimiter, false, "", acc) == Scan(rest, delimiter, false, x, acc)
  {
    var s := EncodeField(x) + rest;
    assert s == [QUOTE] + (Escape(x) + [QUOTE] + rest);
    assert s[1..] == Escape(x) + [QUOTE] + rest;
    ScanOpen(s, delimiter, "", acc);
    ScanQuoted(x, rest, delimiter, "", acc);
    assert "" + x == x;
  }

  lemma {:induction false} RoundTripFrom(fields: seq<string>, delimiter: char, acc: seq<string>)
    requires |fields| > 0 && delimiter != QUOTE
    ensures Scan(EncodeRow(fields, delimiter), delimiter, false, "", acc) == acc + fields
    decreases |fields|
  {
    if |fields| == 1 {
      assert EncodeRow(fields, delimiter) == EncodeField(fields[0]) + "";
      ScanField(fields[0], "", delimiter, acc);
      assert fields == [fields[0]];
    } else {
      var rest := [delimiter] + EncodeRow(fields[1..], delimiter);
      assert EncodeRow(fields, delimiter) == EncodeField(fields[0]) + rest;
      ScanField(fields[0], rest, delimiter, acc);
      ScanDelimiter(rest, delimiter, fields[0], acc);
      assert rest[1..] == EncodeRow(fields[1..], delimiter);
      RoundTripFrom(fields[1..], delimiter, acc + [fields[0]]);
      assert acc + [fields[0]] + fields[1..] == acc + fields;
    }
  }

  /** Quoting round trip: fields of any content, delimiters and quote characters
      included, written quoted with quotes doubled, are read back as those fields,
      trimmed. For instance `"A ""special"" widget"` reads as `A "special" widget`. */
  lemma QuotedRoundTrip(fields: seq<string>, delimiter: char)
    requires |fields| > 0 && delimiter != QUOTE
    ensures SplitFields(EncodeRow(fields, delimiter), delimiter) == MapTrim(fields)
  {
    RoundTripFrom(fields, delimiter, []);
    assert [] + fields == fields;
  }

  /** The first position of `c` in `s`. */
  function IndexOf(s: string, c: char): (k: nat)
    requires c in s
    ensures k < |s| && s[k] == c && c !in s[..k]
  {
    if s[0] == c then 0
    else
      var k := IndexOf(s[1..], c);
      assert s[..k + 1] == [s[0]] + s[1..][..k];
      k + 1
  }

  /** Plain splitting at every occurrence of the delimiter. */
  function SplitOn(s: string, d: char): (r: seq<string>)
    decreases |s|
  {
    if d !in s then [s]
    else
      var k := IndexOf(s, d);
      [s[..k]] + SplitOn(s[k + 1..], d)
  }

  /** Ordinary characters only: no quote and no delimiter among the first `k`. */
  predicate Ordinary(s: string, k: nat, delimiter: char)
    requires k <= |s|
  {
    forall i | 0 <= i < k :: s[i] != QUOTE && s[i] != delimiter
  }

  /** A run of ordinary characters goes into the current field. */
  lemma {:induction false} ScanRun(rest: string, k: nat, delimiter: char, current: string, acc: seq<string>)
    requires k <= |rest| && Ordinary(rest, k, delimiter)
    ensures Scan(rest, delimiter, false, current, acc) == Scan(rest[k..], delimiter, false, current + rest[..k], acc)
    decreases k
  {
    if k == 0 {
      assert rest[0..] == rest;
      assert current + rest[..0] == current;
    } else {
      ScanOrdinary(rest, delimiter, false, current, acc);
      assert Ordinary(rest[1..], k - 1, delimiter) by {
        forall i | 0 <= i < k - 1 ensures rest[1..][i] != QUOTE && rest[1..][i] != delimiter {
          assert rest[1..][i] == rest[i + 1];
        }
      }
      ScanRun(rest[1..], k - 1, delimiter, current + [rest[0]], acc);
      assert rest[1..][k - 1..] == rest[k..];
      assert current + [rest[0]] + rest[1..][..k - 1] == current + rest[..k];
    }
  }

  /** With no quote before the first delimiter, the scan finishes that field there. */
  lemma ScanToDelimiter(s: string, delimiter: char, acc: seq<string>)
    requires delimiter in s
    requires forall i | 0 <= i < |s| :: s[i] != QUOTE
    ensures Scan(s, delimiter, false, "", acc) == Scan(s[IndexOf(s, delimiter) + 1..], delimiter, false, "", acc + [s[..IndexOf(s, delimiter)]])
  {
    var k := IndexOf(s, delimiter);
    assert Ordinary(s, k, delimiter) by {
      forall i | 0 <= i < k ensures s[i] != QUOTE && s[i] != delimiter {
        assert s[..k][i] == s[i];
      }
    }
    ScanRun(s, k, delimiter, "", acc);
    assert "" + s[..k] == s[..k];
    ScanDelimiter(s[k..], delimiter, s[..k], acc);
    assert s[k..][1..] == s[k + 1..];
  }

  lemma {:induction false} ScanUnquoted(s: string, delimiter: char, acc: seq<string>)
    requires forall i | 0 <= i < |s| :: s[i] != QUOTE
    ensures Scan(s, delimiter, false, "", acc) == acc + SplitOn(s, delimiter)
    decreases |s|
  {
    if delimiter !in s {
      assert Ordinary(s, |s|, delimiter) by {
        forall i | 0 <= i < |s| ensures s[i] != QUOTE && s[i] != delimiter {
          assert s[i] in s;
        }
      }
      ScanRun(s, |s|, delimiter, "", acc);
      assert "" + s[..|s|] == s;
      assert s[|s|..] == [];
    } else {
      var k := IndexOf(s, delimiter);
      var tail := s[k + 1..];
      ScanToDelimiter(s, delimiter, acc);
      assert forall i | 0 <= i < |tail| :: tail[i] != QUOTE by {
        forall i | 0 <= i < |tail| ensures tail[i] != QUOTE {
          assert tail[i] == s[k + 1 + i];
        }
      }
      ScanUnquoted(tail, delimiter, acc + [s[..k]]);
      assert SplitOn(s, delimiter) == [s[..k]] + SplitOn(tail, delimiter);
      ConcatAssoc(acc, [s[..k]], SplitOn(tail, delimiter));
    }
  }

  /** Without quote characters the tokenizer is plain splitting followed by trimming. */
  lemma UnquotedLine(line: string, delimiter: char)
    requires QUOTE !in line
    ensures SplitFields(line, delimiter) == MapTrim(SplitOn(line, delimiter))
  {
    ScanUnquoted(line, delimiter, []);
    assert [] + SplitOn(line, delimiter) == SplitOn(line, delimiter);
  }

  // ---------------------------------------------------------------------------
  // Rows and column types
  // ---------------------------------------------------------------------------

  /** `values.getOrNull(i)` */
  function ValueAt(values: seq<string>, i: nat): Option<string> {
    if i < |values| then Some(values[i]) else None
  }

  /** The last position of `h` among the headers. */
  function LastIndex(headers: seq<string>, h: string): (k: nat)
    requires h in headers
    ensures k < |headers| && headers[k] == h && h !in headers[k + 1..]
  {
    var n := |headers| - 1;
    if headers[n] == h then n
    else
      assert h in headers[..n] by {
        var i :| 0 <= i < |headers| && headers[i] == h;
        assert headers[..n][i] == h;
      }
      var k := LastIndex(headers[..n], h);
      assert headers[k + 1..] == headers[..n][k + 1..] + [headers[n]];
      k
  }

  /** The row built from the header names and a line's fields. */
  function RowOf(headers: seq<string>, values: seq<string>): DataRow {
    if |headers| == 0 then DataRow(map[])
    else
      var n := |headers| - 1;
      DataRow(RowOf(headers[..n], values).values[headers[n] := ValueAt(values, n)])
  }

  /** A row has exactly the header names as keys, each with the field at that
      header's position (`null` when the line is short; extra fields are dropped),
      the last position winning for a repeated header. */
  lemma {:induction false} RowOfShape(headers: seq<string>, values: seq<string>)
    ensures RowOf(headers, values).values.Keys == set h | h in headers
    ensures forall h | h in headers ::
      h in RowOf(headers, values).values && RowOf(headers, values).values[h] == ValueAt(values, LastIndex(headers, h))
  {
    if |headers| > 0 {
      var n := |headers| - 1;
      RowOfShape(headers[..n], values);
      assert headers == headers[..n] + [headers[n]];
    }
  }

  /** With distinct header names, the i-th header holds the i-th field. */
  lemma RowOfDistinct(headers: seq<string>, values: seq<string>, i: nat)
    requires NoDuplicates(headers) && i < |headers|
    ensures headers[i] in RowOf(headers, values).values && RowOf(headers, values).values[headers[i]] == ValueAt(values, i)
  {
    RowOfShape(headers, values);
    var k := LastIndex(headers, headers[i]);
    assert headers[k] == headers[i];
  }

  predicate IsNullOrBlank(v: Option<string>) {
    v.None? || IsBlank(v.value)
  }

  /** `sampleRows.mapNotNull { it[header] }.filter { it.isNotBlank() }` */
  function PresentValues(rows: seq<DataRow>, header: string): (r: seq<string>)
    ensures forall i | 0 <= i < |r| :: !IsBlank(r[i])
    ensures |r| == 0 <==> forall i | 0 <= i < |rows| :: IsNullOrBlank(rows[i].Get(header))
  {
    if |rows| == 0 then []
    else
      var prev := PresentValues(rows[..|rows| - 1], header);
      assert forall i | 0 <= i < |rows| - 1 :: rows[..|rows| - 1][i] == rows[i];
      var v := rows[|rows| - 1].Get(header);
      if IsNullOrBlank(v) then prev else prev + [v.value]
  }

  /** The inferred type of each value. */
  function InferAll(values: seq<string>): (r: seq<ColumnType>)
    ensures |r| == |values|
    ensures forall i | 0 <= i < |values| :: r[i] == Infer(Some(values[i]))
  {
    if |values| == 0 then [] else [Infer(Some(values[0]))] + InferAll(values[1..])
  }

  /** The column for one header in `inferColumnTypes`: the majority of the types
      inferred from the non-blank values, STRING when there are none, and nullable
      exactly when some sample row lacks a value or has a blank one. */
  function ColumnFor(header: string, sample: seq<DataRow>): (c: ColumnInfo)
    ensures c.name == header
    ensures c.nullable <==> exists i | 0 <= i < |sample| :: IsNullOrBlank(sample[i].Get(header))
    ensures var types := InferAll(PresentValues(sample, header));
      && (|types| == 0 ==> c.columnType == STRING)
      && (|types| > 0 ==> c.columnType in types && forall t | t in types :: Count(types, t) <= Count(types, c.columnType))
  {
    var types := InferAll(PresentValues(sample, header));
    var majority := Majority(types);
    var columnType := if majority.Some? then majority.value else STRING;
    assert |types| > 0 ==> forall t | t in types :: Count(types, t) <= Count(types, columnType) by {
      forall t | t in types
        ensures Count(types, t) <= Count(types, columnType)
      {
        MajorityIsMostFrequent(types, t);
      }
    }
    ColumnInfo(header, columnType, exists i | 0 <= i < |sample| :: IsNullOrBlank(sample[i].Get(header)))
  }

  /** `inferColumnTypes`: one column per header, in header order. */
  function InferColumnTypes(headers: seq<string>, sample: seq<DataRow>): (cols: seq<ColumnInfo>)
    ensures |cols| == |headers|
    ensures forall i | 0 <= i < |headers| :: cols[i] == ColumnFor(headers[i], sample)
  {
    if |headers| == 0 then [] else [ColumnFor(headers[0], sample)] + InferColumnTypes(headers[1..], sample)
  }

  /** Only blank-free values vote, so a CSV column is never typed UNKNOWN. */
  lemma ColumnNeverUnknown(header: string, sample: seq<DataRow>)
    ensures ColumnFor(header, sample).columnType != UNKNOWN
  {
    var values := PresentValues(sample, header);
    var types := InferAll(values);
    forall i | 0 <= i < |types| ensures types[i] != UNKNOWN {
      InferUnknownIffBlank(Some(values[i]));
    }
  }

  // ---------------------------------------------------------------------------
  // The parse flow
  // ---------------------------------------------------------------------------

  /** The parsed data once `n` data lines are loaded: the rows of those lines, the
      column types voted on the first rows, the total row count and the sample flag. */
  function CsvData(headers: seq<string>, dataLines: seq<string>, delimiter: char, n: nat): ParsedData
    requires n <= |dataLines|
  {
    var rows := seq(n, i requires 0 <= i < n => RowOf(headers, SplitFields(dataLines[i], delimiter)));
    var columns := InferColumnTypes(headers, Take(rows, SAMPLE_SIZE_FOR_TYPE_INFERENCE));
    ParsedData(DataSchema(columns), rows, |dataLines|, n < |dataLines|)
  }

  /** The events once the header is read: `take` of a negative count fails, otherwise
      the row reports and the success. */
  function LoadEvents(headers: seq<string>, dataLines: seq<string>, delimiter: char, maxRows: int): seq<ParseResult> {
    var rowsToParse := Min(maxRows, |dataLines|);
    if rowsToParse < 0 then [Error("Failed to parse CSV: " + NegativeTakeMessage(rowsToParse))]
    else RowProgress(rowsToParse, |dataLines|) + [Success(CsvData(headers, dataLines, delimiter, rowsToParse))]
  }

  /** The events once the delimiter is chosen. */
  function HeaderEvents(lines: seq<string>, delimiter: char, maxRows: int): seq<ParseResult>
    requires |lines| > 0
  {
    var headers := SplitFields(lines[0], delimiter);
    if |headers| == 0 then [Error("Could not parse header row")]
    else [Progress(0, Some(|lines| - 1), Some("Parsing rows..."))] + LoadEvents(headers, lines[1..], delimiter, maxRows)
  }

  /** The events `parse(content, maxRows)` emits. */
  function CsvEvents(content: string, maxRows: int): seq<ParseResult> {
    if IsBlank(content) then [Error("File is empty")]
    else
      var lines := NonBlankLines(content);
      if |lines| == 0 then [Error("No data lines found")]
      else
        [Progress(0, Some(|lines|), Some("Detecting delimiter..."))]
        + HeaderEvents(lines, DetectDelimiter(lines[0]), maxRows)
  }

  /** `parse`: the same events, with the rows loaded one line at a time and a
      progress report after every 100th. */
  method Parse(content: string, maxRows: int) returns (events: seq<ParseResult>)
    ensures events == CsvEvents(content, maxRows)
  {
    if IsBlank(content) {
      return [Error("File is empty")];
    }
    var lines := NonBlankLines(content);
    if |lines| == 0 {
      return [Error("No data lines found")];
    }
    var detecting := Progress(0, Some(|lines|), Some("Detecting delimiter..."));
    var delimiter := DetectDelimiter(lines[0]);
    var headers := ParseLine(lines[0], delimiter);
    if |headers| == 0 {
      return [detecting, Error("Could not parse header row")];
    }
    var parsing := Progress(0, Some(|lines| - 1), Some("Parsing rows..."));
    var loading := Load(headers, lines[1..], delimiter, maxRows);
    events := [detecting] + ([parsing] + loading);
  }

  /** The rest of `parse` once the header is read. */
  method Load(headers: seq<string>, dataLines: seq<string>, delimiter: char, maxRows: int) returns (events: seq<ParseResult>)
    ensures events == LoadEvents(headers, dataLines, delimiter, maxRows)
  {
    var totalRows := |dataLines|;
    var rowsToParse := Min(maxRows, totalRows);
    if rowsToParse < 0 {
      return [Error("Failed to parse CSV: " + NegativeTakeMessage(rowsToParse))];
    }
    var rows;
    rows, events := LoadRows(headers, dataLines, delimiter, rowsToParse);
    var columns := InferColumnTypes(headers, Take(rows, SAMPLE_SIZE_FOR_TYPE_INFERENCE));
    var data := ParsedData(DataSchema(columns), rows, totalRows, rowsToParse < totalRows);
    assert rows == seq(rowsToParse, i requires 0 <= i < rowsToParse => RowOf(headers, SplitFields(dataLines[i], delimiter)));
    events := events + [Success(data)];
  }

  /** The loop of `parse` over the first `n` data lines, with a report after every 100th. */
  method LoadRows(headers: seq<string>, dataLines: seq<string>, delimiter: char, n: nat)
    returns (rows: seq<DataRow>, events: seq<ParseResult>)
    requires n <= |dataLines|
    ensures |rows| == n
    ensures forall i | 0 <= i < n :: rows[i] == RowOf(headers, SplitFields(dataLines[i], delimiter))
    ensures events == RowProgress(n, |dataLines|)
  {
    events := [];
    rows := [];
    var index := 0;
    while index < n
      invariant 0 <= index <= n
      invariant |rows| == index
      invariant forall i | 0 <= i < index :: rows[i] == RowOf(headers, SplitFields(dataLines[i], delimiter))
      invariant events == RowProgress(index, |dataLines|)
    {
      var values := ParseLine(dataLines[index], delimiter);
      rows := rows + [RowOf(headers, values)];
      if (index + 1) % 100 == 0 {
        events := events + [Progress(index + 1, Some(|dataLines|), None)];
      }
      index := index + 1;
    }
  }

  /** `countRows`: the non-blank lines less the header (-1 for blank content). */
  function CountRows(content: string): int {
    |NonBlankLines(content)| - 1
  }

  // ---------------------------------------------------------------------------
  // Properties of the flow
  // ---------------------------------------------------------------------------

  lemma DelimiterIsNotQuote(header: string)
    ensures DetectDelimiter(header) != QUOTE
  {
  }

  lemma LoadWellFormed(headers: seq<string>, dataLines: seq<string>, delimiter: char, maxRows: int)
    ensures WellFormed(LoadEvents(headers, dataLines, delimiter, maxRows))
  {
    var n := Min(maxRows, |dataLines|);
    if n >= 0 {
      ThenTerminal(RowProgress(n, |dataLines|), Success(CsvData(headers, dataLines, delimiter, n)));
    }
  }

  /** A parse always ends with exactly one success or error, after progress reports only. */
  lemma CsvWellFormed(content: string, maxRows: int)
    ensures WellFormed(CsvEvents(content, maxRows))
  {
    if !IsBlank(content) {
      CsvEventsOfContent(content, maxRows);
      var lines := NonBlankLines(content);
      var delimiter := DetectDelimiter(lines[0]);
      var load := LoadEvents(SplitFields(lines[0], delimiter), lines[1..], delimiter, maxRows);
      LoadWellFormed(SplitFields(lines[0], delimiter), lines[1..], delimiter, maxRows);
      ReportThen(Progress(0, Some(|lines| - 1), Some("Parsing rows...")), load);
      ReportThen(Progress(0, Some(|lines|), Some("Detecting delimiter...")),
                 [Progress(0, Some(|lines| - 1), Some("Parsing rows..."))] + load);
    }
  }

  /** Non-blank content has a header line with at least one field, so its events are the
      two reports and then those of the load. */
  lemma CsvEventsOfContent(content: string, maxRows: int)
    requires !IsBlank(content)
    ensures var lines := NonBlankLines(content);
      && |lines| > 0
      && var delimiter := DetectDelimiter(lines[0]);
      CsvEvents(content, maxRows)
         == [Progress(0, Some(|lines|), Some("Detecting delimiter..."))]
            + ([Progress(0, Some(|lines| - 1), Some("Parsing rows..."))]
               + LoadEvents(SplitFields(lines[0], delimiter), lines[1..], delimiter, maxRows))
  {
    NonBlankLinesEmptyIff(content);
    var lines := NonBlankLines(content);
    FieldCount(lines[0], DetectDelimiter(lines[0]));
  }

  /** The last event of a non-blank content's parse is that of its load. */
  lemma CsvLastEvent(content: string, maxRows: int)
    requires !IsBlank(content)
    ensures var lines := NonBlankLines(content);
      && |lines| > 0
      && var delimiter := DetectDelimiter(lines[0]);
      var load := LoadEvents(SplitFields(lines[0], delimiter), lines[1..], delimiter, maxRows);
      var events := CsvEvents(content, maxRows);
      && |load| > 0
      && |events| == 2 + |load|
      && events[|events| - 1] == load[|load| - 1]
  {
    CsvEventsOfContent(content, maxRows);
    var lines := NonBlankLines(content);
    var delimiter := DetectDelimiter(lines[0]);
    var headers := SplitFields(lines[0], delimiter);
    var load := LoadEvents(headers, lines[1..], delimiter, maxRows);
    LoadWellFormed(headers, lines[1..], delimiter, maxRows);
    var header := [Progress(0, Some(|lines| - 1), Some("Parsing rows..."))] + load;
    LastOfConcat([Progress(0, Some(|lines| - 1), Some("Parsing rows..."))], load);
    LastOfConcat([Progress(0, Some(|lines|), Some("Detecting delimiter..."))], header);
  }

  /** The parse fails exactly for blank content, with "File is empty", and for a
      negative row limit, with the message of the failing `take`; the "no data lines"
      and "could not parse header row" errors are unreachable. */
  lemma CsvErrors(content: string, maxRows: int)
    ensures var events := CsvEvents(content, maxRows);
      && (events[|events| - 1].Error? <==> IsBlank(content) || maxRows < 0)
      && (IsBlank(content) ==> events == [Error("File is empty")])
      && (!IsBlank(content) && maxRows < 0 ==>
            events[|events| - 1] == Error("Failed to parse CSV: " + NegativeTakeMessage(maxRows)))
  {
    CsvWellFormed(content, maxRows);
    if !IsBlank(content) {
      CsvLastEvent(content, maxRows);
    }
  }

  /** What a successful load holds. */
  lemma LoadSuccess(headers: seq<string>, dataLines: seq<string>, delimiter: char, maxRows: int)
    requires maxRows >= 0
    ensures var events := LoadEvents(headers, dataLines, delimiter, maxRows);
      var loaded := Min(maxRows, |dataLines|);
      && |events| == 1 + loaded / 100
      && events[|events| - 1] == Success(CsvData(headers, dataLines, delimiter, loaded))
  {
    RowProgressShape(Min(maxRows, |dataLines|), |dataLines|);
  }

  /** The data of a load: the row count excludes nothing, the rows are the first
      `loaded` lines keyed by the header names, the sample flag says whether rows were
      left out, and the schema lists the headers in order. */
  lemma CsvDataShape(headers: seq<string>, dataLines: seq<string>, delimiter: char, loaded: nat)
    requires loaded <= |dataLines|
    ensures var data := CsvData(headers, dataLines, delimiter, loaded);
      && data.totalRowCount == |dataLines|
      && data.LoadedRowCount() == loaded
      && (data.isSampled <==> data.LoadedRowCount() < data.totalRowCount)
      && data.schema.ColumnNames() == headers
      && forall i | 0 <= i < loaded :: data.rows[i] == RowOf(headers, SplitFields(dataLines[i], delimiter))
  {
  }

  /** On success the events are the two reports, one report per 100 rows, and the data
      of the first `min(maxRows, total)` data lines, as the data lemma describes; the
      total excludes the header line and is what `countRows` says. */
  lemma CsvSuccess(content: string, maxRows: int)
    requires !IsBlank(content) && maxRows >= 0
    ensures |NonBlankLines(content)| > 0
    ensures var events := CsvEvents(content, maxRows);
      var lines := NonBlankLines(content);
      var delimiter := DetectDelimiter(lines[0]);
      var loaded := Min(maxRows, |lines| - 1);
      && |events| == 3 + loaded / 100
      && events[|events| - 1] == Success(CsvData(SplitFields(lines[0], delimiter), lines[1..], delimiter, loaded))
      && |lines| - 1 == CountRows(content)
  {
    CsvLastEvent(content, maxRows);
    var lines := NonBlankLines(content);
    var delimiter := DetectDelimiter(lines[0]);
    LoadSuccess(SplitFields(lines[0], delimiter), lines[1..], delimiter, maxRows);
  }
}
