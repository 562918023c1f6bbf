/**
 * The log parser: detects one of four line formats from the first lines (or falls
 * back to raw lines), turns every non-blank line into a map of named fields, and
 * derives the schema from the union of the keys with name-based type hints.
 *
 * The Simple and Key-Value patterns are small enough to be written out here with
 * the semantics of `java.util.regex`; the Standard and Apache patterns are given
 * as matcher functions returning their capture groups.
 */
module LogParser {
  import opened Options
  import opened Text
  import opened Votes
  import opened ParsedData
  import opened ParseEvents

  /** How many lines format detection looks at, and how many rows type inference. */
  const SAMPLE_SIZE: nat := 10

  datatype LogFormat = STANDARD | APACHE | SIMPLE | KEY_VALUE | RAW

  /** The enum constant's `name`. */
  function FormatName(f: LogFormat): string {
    match f
    case STANDARD => "STANDARD"
    case APACHE => "APACHE"
    case SIMPLE => "SIMPLE"
    case KEY_VALUE => "KEY_VALUE"
    case RAW => "RAW"
  }

  /** The candidate formats in the order they are counted. */
  const CANDIDATES: seq<LogFormat> := [STANDARD, APACHE, SIMPLE, KEY_VALUE]

  // ---------------------------------------------------------------------------
  // Regular-expression character classes (java.util.regex defaults)
  // ---------------------------------------------------------------------------

  /** `\w`: ASCII letters, digits and the underscore. */
  predicate IsWordChar(c: char) {
    ('a' <= c <= 'z') || ('A' <= c <= 'Z') || ('0' <= c <= '9') || c == '_'
  }

  /** `\s`: space, tab, newline, vertical tab, form feed, carriage return. */
  predicate IsRegexSpace(c: char) {
    c == ' ' || c == '\t' || c == '\n' || c == '\U{000B}' || c == '\U{000C}' || c == '\r'
  }

  /** `.`: anything but a line terminator. */
  predicate IsDotChar(c: char) {
    !(c == '\n' || c == '\r' || c == '\U{0085}' || c == '\U{2028}' || c == '\U{2029}')
  }

  predicate AllDot(s: string) {
    forall i | 0 <= i < |s| :: IsDotChar(s[i])
  }

  predicate IsWordText(s: string) {
    forall i | 0 <= i < |s| :: IsWordChar(s[i])
  }

  /** The end of the longest run of characters satisfying `p` that starts at `i`:
      what a greedy `p+` (or `p*`) reaches. */
  function RunEnd(s: string, i: nat, p: char -> bool): (k: nat)
    requires i <= |s|
    ensures i <= k <= |s|
    ensures forall m | i <= m < k :: p(s[m])
    ensures k < |s| ==> !p(s[k])
    decreases |s| - i
  {
    if i == |s| || !p(s[i]) then i else RunEnd(s, i + 1, p)
  }

  // ---------------------------------------------------------------------------
  // The four formats
  // ---------------------------------------------------------------------------

  /** The capture groups of the Standard pattern: timestamp, level, source, message. */
  datatype StandardMatch = StandardMatch(timestamp: string, level: string, source: string, message: string)

  /** The capture groups of the Apache pattern; an optional group that did not take
      part in the match is the empty string, as in Kotlin's `groupValues`. */
  datatype ApacheMatch = ApacheMatch(ip: string, identity: string, user: string, timestamp: string,
                                     request: string, status: string, size: string,
                                     referer: string, userAgent: string)

  /** Whole-line matchers for the Standard and Apache patterns (`matchEntire`). */
  datatype Patterns = Patterns(standard: string -> Option<StandardMatch>, apache: string -> Option<ApacheMatch>)

  /** The capture groups of the Simple pattern `^(?:\[(\w+)]|(\w+):)\s+(.*)$`. */
  datatype SimpleMatch = SimpleMatch(bracketed: string, plain: string, message: string)

  /** `\s+(.*)$` from position `p` to the end: a non-empty run of spaces, then line
      characters only. */
  function SimpleRest(line: string, p: nat): Option<string>
    requires p <= |line|
  {
    var w := RunEnd(line, p, IsRegexSpace);
    if w > p && AllDot(line[w..]) then Some(line[w..]) else None
  }

  /** `SIMPLE_LOG_PATTERN.matchEntire(line)`: either `[word]` or `word:`, then
      whitespace and the message. */
  function MatchSimple(line: string): Option<SimpleMatch> {
    if |line| > 0 && line[0] == '[' then
      var e := RunEnd(line, 1, IsWordChar);
      if e > 1 && e < |line| && line[e] == ']' then
        match SimpleRest(line, e + 1)
        case Some(message) => Some(SimpleMatch(line[1..e], "", message))
        case None => None
      else None
    else
      var e := RunEnd(line, 0, IsWordChar);
      if e > 0 && e < |line| && line[e] == ':' then
        match SimpleRest(line, e + 1)
        case Some(message) => Some(SimpleMatch("", line[..e], message))
        case None => None
      else None
  }

  /** The groups of one match of `(\w+)=(?:"([^"]*)"|([^\s]+))`: key, quoted value,
      bare value (a group that did not take part is empty). */
  datatype KvMatch = KvMatch(key: string, quoted: string, bare: string)

  predicate IsNotQuote(c: char) {
    c != '"'
  }

  predicate IsNotRegexSpace(c: char) {
    !IsRegexSpace(c)
  }

  /** A Key-Value match starting exactly at `p`, with the position after it. */
  function KvAt(line: string, p: nat): (r: Option<(KvMatch, nat)>)
    requires p <= |line|
    ensures r.Some? ==> p < r.value.1 <= |line|
  {
    var e := RunEnd(line, p, IsWordChar);
    if e == p || e == |line| || line[e] != '=' then None
    else
      var q := if e + 1 < |line| && line[e + 1] == '"' then RunEnd(line, e + 2, IsNotQuote) else |line|;
      if q < |line| then Some((KvMatch(line[p..e], line[e + 2..q], ""), q + 1))
      else
        var v := RunEnd(line, e + 1, IsNotRegexSpace);
        if v > e + 1 then Some((KvMatch(line[p..e], "", line[e + 1..v]), v)) else None
  }

  /** `KEY_VALUE_PATTERN.findAll(line)` from position `p`: each search tries every
      start position in turn and resumes after the match it finds. */
  function KvMatches(line: string, p: nat): seq<KvMatch>
    requires p <= |line|
    decreases |line| - p
  {
    if p == |line| then []
    else
      match KvAt(line, p)
      case Some((m, q)) => [m] + KvMatches(line, q)
      case None => KvMatches(line, p + 1)
  }

  /** The value a match stores: the quoted value when it is not empty, else the bare one. */
  function KvValue(m: KvMatch): string {
    if |m.quoted| > 0 then m.quoted else m.bare
  }

  /** The map the matches fill in order, a later key overwriting an earlier one. */
  function KvMap(matches: seq<KvMatch>): map<string, Option<string>> {
    if |matches| == 0 then map[]
    else
      var n := |matches| - 1;
      KvMap(matches[..n])[matches[n].key := Some(KvValue(matches[n]))]
  }

  /** The single-entry map a line falls back to. */
  function LineOnly(line: string): map<string, Option<string>> {
    map["line" := Some(line)]
  }

  /** The map `parseKeyValueLog` returns. */
  function KeyValueFields(line: string): map<string, Option<string>> {
    var result := KvMap(KvMatches(line, 0));
    if result == map[] then LineOnly(line) else result
  }

  /** `parseKeyValueLog`: stores every match of the line in turn. */
  method ParseKeyValue(line: string) returns (result: map<string, Option<string>>)
    ensures result == KeyValueFields(line)
  {
    var matches := KvMatches(line, 0);
    result := map[];
    for i := 0 to |matches|
      invariant result == KvMap(matches[..i])
    {
      var m := matches[i];
      var value := if |m.quoted| > 0 then m.quoted else m.bare;
      assert matches[..i + 1][..i] == matches[..i];
      result := result[m.key := Some(value)];
    }
    assert matches[..|matches|] == matches;
    if result == map[] {
      result := map["line" := Some(line)];
    }
  }

  /** `parseStandardLog`: the four groups, the level upper-cased. The source's level
      group is `\w+`, ASCII word characters, where Kotlin's `uppercase` is the ASCII
      mapping; the matcher is a parameter, so that restriction is not imposed on it. */
  function StandardFields(line: string, patterns: Patterns): map<string, Option<string>> {
    match patterns.standard(line)
    case None => LineOnly(line)
    case Some(m) =>
      map["timestamp" := Some(m.timestamp), "level" := Some(AsciiUpper(m.level)),
          "source" := Some(m.source), "message" := Some(m.message)]
  }

  /** `takeIf { it != "-" }` */
  function UnlessDash(s: string): Option<string> {
    if s != "-" then Some(s) else None
  }

  /** `takeIf { it.isNotBlank() && it != "-" }` */
  function UnlessBlankOrDash(s: string): Option<string> {
    if !IsBlank(s) && s != "-" then Some(s) else None
  }

  /** `filterValues { it != null }` */
  function PresentOnly(m: map<string, Option<string>>): map<string, Option<string>> {
    map k | k in m && m[k].Some? :: m[k]
  }

  /** `parseApacheLog`: the nine fields, without a `-` identity or user and without a
      blank or `-` referer or user agent. */
  function ApacheFields(line: string, patterns: Patterns): map<string, Option<string>> {
    match patterns.apache(line)
    case None => LineOnly(line)
    case Some(m) => PresentOnly(ApacheCandidates(m))
  }

  /** The nine Apache fields before the absent ones are dropped. */
  function ApacheCandidates(m: ApacheMatch): map<string, Option<string>> {
    map["ip" := Some(m.ip), "identity" := UnlessDash(m.identity), "user" := UnlessDash(m.user),
        "timestamp" := Some(m.timestamp), "request" := Some(m.request),
        "status" := Some(m.status), "size" := Some(m.size),
        "referer" := UnlessBlankOrDash(m.referer), "user_agent" := UnlessBlankOrDash(m.userAgent)]
  }

  /** `parseSimpleLog`: the level (from whichever alternative matched, upper-cased)
      and the message. */
  function SimpleFields(line: string): map<string, Option<string>> {
    match MatchSimple(line)
    case None => LineOnly(line)
    case Some(m) =>
      var level := if |m.bracketed| > 0 then m.bracketed else m.plain;
      map["level" := Some(AsciiUpper(level)), "message" := Some(m.message)]
  }

  /** `parseLine` */
  function ParseLine(line: string, format: LogFormat, patterns: Patterns): map<string, Option<string>> {
    match format
    case STANDARD => StandardFields(line, patterns)
    case APACHE => ApacheFields(line, patterns)
    case SIMPLE => SimpleFields(line)
    case KEY_VALUE => KeyValueFields(line)
    case RAW => LineOnly(line)
  }

  // ---------------------------------------------------------------------------
  // Format detection
  // ---------------------------------------------------------------------------

  predicate IsKeyValueLine(line: string) {
    |KvMatches(line, 0)| >= 2
  }

  /** `count { … }` */
  function CountWhere(lines: seq<string>, p: string -> bool): (n: nat)
    ensures n <= |lines|
  {
    if |lines| == 0 then 0
    else CountWhere(lines[..|lines| - 1], p) + (if p(lines[|lines| - 1]) then 1 else 0)
  }

  /** The number of sampled lines each candidate format matches, in candidate order. */
  function FormatCounts(sample: seq<string>, patterns: Patterns): seq<nat> {
    [CountWhere(sample, (l: string) => patterns.standard(l).Some?),
     CountWhere(sample, (l: string) => patterns.apache(l).Some?),
     CountWhere(sample, (l: string) => MatchSimple(l).Some?),
     CountWhere(sample, IsKeyValueLine)]
  }

  /** `maxByOrNull` over the counts: the first position of the greatest count. */
  function FirstMax(counts: seq<nat>): (k: nat)
    requires |counts| > 0
    ensures k < |counts|
    ensures forall i | 0 <= i < k :: counts[i] < counts[k]
    ensures forall i | k < i < |counts| :: counts[i] <= counts[k]
  {
    if |counts| == 1 then 0
    else
      var n := |counts| - 1;
      var k := FirstMax(counts[..n]);
      assert forall i | 0 <= i < n :: counts[..n][i] == counts[i];
      if counts[k] < counts[n] then n else k
  }

  /** `detectFormat`: the most matched candidate (the earlier on a tie) when it
      matches more than a third of the sample (integer division), RAW otherwise. */
  function DetectFormat(sample: seq<string>, patterns: Patterns): LogFormat {
    var counts := FormatCounts(sample, patterns);
    var k := FirstMax(counts);
    if counts[k] > |sample| / 3 then CANDIDATES[k] else RAW
  }

  // ---------------------------------------------------------------------------
  // Schema
  // ---------------------------------------------------------------------------

  /** The type a column name alone decides, tried in order on the lower-cased key. */
  function KeyHint(key: string): Option<ColumnType> {
    var lowerKey := AsciiLower(key);
    if Contains(lowerKey, "time") || Contains(lowerKey, "date") then Some(TIMESTAMP)
    else if lowerKey == "level" then Some(STRING)
    else if lowerKey == "status" || lowerKey == "code" then Some(INTEGER)
    else if lowerKey == "size" || lowerKey == "bytes" || lowerKey == "count" then Some(INTEGER)
    else None
  }

  /** The majority of the values' inferred types, STRING when there are none. */
  function ValuesType(values: seq<string>): ColumnType {
    var types := seq(|values|, i requires 0 <= i < |values| => Infer(Some(values[i])));
    var majority := Majority(types);
    if majority.Some? then majority.value else STRING
  }

  /** `inferColumnType`: the name hint when there is one, otherwise the values decide. */
  function InferColumnType(key: string, values: seq<string>): ColumnType {
    match KeyHint(key)
    case Some(t) => t
    case None => ValuesType(values)
  }

  /** `rows.take(10).mapNotNull { it[key] }` */
  function SampleValues(rows: seq<DataRow>, key: string): (r: seq<string>)
    ensures |r| <= |rows|
  {
    if |rows| == 0 then []
    else
      var n := |rows| - 1;
      var v := rows[n].Get(key);
      SampleValues(rows[..n], key) + (if v.Some? then [v.value] else [])
  }

  /** The key union of the rows. */
  function KeysOf(rows: seq<DataRow>): set<string> {
    if |rows| == 0 then {} else KeysOf(rows[..|rows| - 1]) + rows[|rows| - 1].values.Keys
  }

  /** One nullable column per key, typed from the first ten rows. */
  function LogColumns(keys: seq<string>, rows: seq<DataRow>): (cols: seq<ColumnInfo>)
    ensures |cols| == |keys|
    ensures forall i | 0 <= i < |keys| ::
      cols[i] == ColumnInfo(keys[i], InferColumnType(keys[i], SampleValues(Take(rows, SAMPLE_SIZE), keys[i])), true)
  {
    if |keys| == 0 then []
    else
      [ColumnInfo(keys[0], InferColumnType(keys[0], SampleValues(Take(rows, SAMPLE_SIZE), keys[0])), true)]
      + LogColumns(keys[1..], rows)
  }

  function LineParser(format: LogFormat, patterns: Patterns): string -> map<string, Option<string>> {
    line => ParseLine(line, format, patterns)
  }

  /** The maps that are not empty, as rows, in order. */
  function NonEmptyRows(maps: seq<map<string, Option<string>>>): seq<DataRow> {
    if |maps| == 0 then []
    else
      var n := |maps| - 1;
      NonEmptyRows(maps[..n]) + (if maps[n] != map[] then [DataRow(maps[n])] else [])
  }

  /** The rows of some lines: each line's map, when it is not empty. */
  function LogRows(lines: seq<string>, format: LogFormat, patterns: Patterns): seq<DataRow> {
    NonEmptyRows(Map(lines, LineParser(format, patterns)))
  }

  /** The parsed data once `n` lines are loaded. */
  function LogData(lines: seq<string>, format: LogFormat, patterns: Patterns, n: nat): ParsedData
    requires n <= |lines|
  {
    var rows := LogRows(lines[..n], format, patterns);
    ParsedData(DataSchema(LogColumns(SortedKeys(KeysOf(rows)), rows)), rows, |lines|, n < |lines|)
  }

  // ---------------------------------------------------------------------------
  // The flow
  // ---------------------------------------------------------------------------

  /** The events once the format is chosen. */
  function LoadEvents(lines: seq<string>, format: LogFormat, patterns: Patterns, maxRows: int): seq<ParseResult> {
    var rowsToParse := Min(maxRows, |lines|);
    if rowsToParse < 0 then [Error("Failed to parse log file: " + NegativeTakeMessage(rowsToParse))]
    else
      RowProgress(rowsToParse, |lines|)
      + [if LogRows(lines[..rowsToParse], format, patterns) == [] then Error("Could not parse any log lines")
         else Success(LogData(lines, format, patterns, rowsToParse))]
  }

  /** The events `parse(content, maxRows)` emits. */
  function LogEvents(content: string, patterns: Patterns, maxRows: int): seq<ParseResult> {
    if IsBlank(content) then [Error("File is empty")]
    else
      var lines := NonBlankLines(content);
      if |lines| == 0 then [Error("No log lines found")]
      else
        var format := DetectFormat(Take(lines, SAMPLE_SIZE), patterns);
        [Progress(0, Some(|lines|), Some("Detecting log format..."))]
        + ([Progress(0, Some(|lines|), Some("Parsing with " + FormatName(format) + " format..."))]
           + LoadEvents(lines, format, patterns, maxRows))
  }

  /** `countRows`: the non-blank lines. */
  function CountRows(content: string): nat {
    |NonBlankLines(content)|
  }

  /** `parse` */
  method Parse(content: string, patterns: Patterns, maxRows: int) returns (events: seq<ParseResult>)
    ensures events == LogEvents(content, patterns, maxRows)
  {
    if IsBlank(content) {
      return [Error("File is empty")];
    }
    var lines := NonBlankLines(content);
    if |lines| == 0 {
      return [Error("No log lines found")];
    }
    var detecting := Progress(0, Some(|lines|), Some("Detecting log format..."));
    var format := DetectFormat(Take(lines, SAMPLE_SIZE), patterns);
    var parsing := Progress(0, Some(|lines|), Some("Parsing with " + FormatName(format) + " format..."));
    var loading := Load(lines, format, patterns, maxRows);
    events := [detecting] + ([parsing] + loading);
  }

  /** The rest of `parse` once the format is chosen. */
  method Load(lines: seq<string>, format: LogFormat, patterns: Patterns, maxRows: int) returns (events: seq<ParseResult>)
    ensures events == LoadEvents(lines, format, patterns, maxRows)
  {
    var totalRows := |lines|;
    var rowsToParse := Min(maxRows, totalRows);
    if rowsToParse < 0 {
      return [Error("Failed to parse log file: " + NegativeTakeMessage(rowsToParse))];
    }
    var rows, allKeys;
    rows, allKeys, events := LoadRows(lines, format, patterns, rowsToParse);
    if rows == [] {
      return events + [Error("Could not parse any log lines")];
    }
    var columns := LogColumns(SortedKeys(allKeys), rows);
    var data := ParsedData(DataSchema(columns), rows, totalRows, rowsToParse < totalRows);
    events := events + [Success(data)];
  }

  /** The state of the loop of `parse` after `index` lines: the rows of those lines, their
      keys and the reports so far. */
  predicate Loaded(lines: seq<string>, format: LogFormat, patterns: Patterns, index: nat,
                   rows: seq<DataRow>, allKeys: set<string>, events: seq<ParseResult>)
  {
    && index <= |lines|
    && rows == LogRows(lines[..index], format, patterns)
    && allKeys == KeysOf(rows)
    && events == RowProgress(index, |lines|)
  }

  /** The loop of `parse` over the first `n` lines: the non-empty maps become rows and
      their keys are collected, with a report after every 100th line. */
  method LoadRows(lines: seq<string>, format: LogFormat, patterns: Patterns, n: nat)
    returns (rows: seq<DataRow>, allKeys: set<string>, events: seq<ParseResult>)
    requires n <= |lines|
    ensures Loaded(lines, format, patterns, n, rows, allKeys, events)
  {
    rows, allKeys, events := [], {}, [];
    var index := 0;
    while index < n
      invariant index <= n
      invariant Loaded(lines, format, patterns, index, rows, allKeys, events)
    {
      rows, allKeys, events := LoadLine(lines, format, patterns, index, rows, allKeys, events);
      index := index + 1;
    }
  }

  /** One pass of the loop: line `index` is parsed, kept when its map is not empty, and
      every 100th line is reported. */
  method LoadLine(lines: seq<string>, format: LogFormat, patterns: Patterns, index: nat,
                  rows: seq<DataRow>, allKeys: set<string>, events: seq<ParseResult>)
    returns (rows': seq<DataRow>, allKeys': set<string>, events': seq<ParseResult>)
    requires index < |lines|
    requires Loaded(lines, format, patterns, index, rows, allKeys, events)
    ensures Loaded(lines, format, patterns, index + 1, rows', allKeys', events')
  {
    var parsed := ParseAnyLine(lines[index], format, patterns);
    LogRowsSnoc(lines, index, format, patterns);
    rows', allKeys' := rows, allKeys;
    if parsed != map[] {
      KeysOfSnoc(rows, DataRow(parsed));
      rows' := rows + [DataRow(parsed)];
      allKeys' := allKeys + parsed.Keys;
    }
    events' := events;
    if (index + 1) % 100 == 0 {
      events' := events + [Progress(index + 1, Some(|lines|), None)];
    }
  }

  /** The `when` over the format inside the loop of `parse`. */
  method ParseAnyLine(line: string, format: LogFormat, patterns: Patterns) returns (parsed: map<string, Option<string>>)
    ensures parsed == ParseLine(line, format, patterns)
  {
    if format == KEY_VALUE {
      parsed := ParseKeyValue(line);
    } else {
      parsed := ParseLine(line, format, patterns);
    }
  }

  lemma LogRowsSnoc(lines: seq<string>, index: nat, format: LogFormat, patterns: Patterns)
    requires index < |lines|
    ensures var parsed := ParseLine(lines[index], format, patterns);
      LogRows(lines[..index + 1], format, patterns)
      == LogRows(lines[..index], format, patterns) + (if parsed != map[] then [DataRow(parsed)] else [])
  {
    var f := LineParser(format, patterns);
    MapSnoc(lines, index, f);
    NonEmptyRowsSnoc(Map(lines[..index], f), f(lines[index]));
  }

  lemma NonEmptyRowsSnoc(maps: seq<map<string, Option<string>>>, m: map<string, Option<string>>)
    ensures NonEmptyRows(maps + [m]) == NonEmptyRows(maps) + (if m != map[] then [DataRow(m)] else [])
  {
    assert (maps + [m])[..|maps|] == maps;
  }

  lemma KeysOfSnoc(rows: seq<DataRow>, row: DataRow)
    ensures KeysOf(rows + [row]) == KeysOf(rows) + row.values.Keys
  {
    assert (rows + [row])[..|rows|] == rows;
  }

  // ---------------------------------------------------------------------------
  // Properties of the line formats
  // ---------------------------------------------------------------------------

  /** Every line yields a non-empty map without `null` values, whatever the format:
      a line its pattern rejects becomes `{line: text}`. */
  lemma ParseLineNonEmpty(line: string, format: LogFormat, patterns: Patterns)
    ensures var fields := ParseLine(line, format, patterns);
      fields != map[] && forall k | k in fields :: fields[k].Some?
  {
    var fields := ParseLine(line, format, patterns);
    match format
    case STANDARD =>
      if patterns.standard(line).Some? { assert "timestamp" in fields; } else { assert "line" in fields; }
    case APACHE =>
      if patterns.apache(line).Some? { assert "ip" in fields; } else { assert "line" in fields; }
    case SIMPLE =>
      if MatchSimple(line).Some? { assert "level" in fields; } else { assert "line" in fields; }
    case KEY_VALUE =>
      KvMapValues(KvMatches(line, 0));
      if KvMap(KvMatches(line, 0)) == map[] { assert "line" in fields; }
    case RAW =>
      assert "line" in fields;
  }

  lemma {:induction false} KvMapValues(matches: seq<KvMatch>)
    ensures forall k | k in KvMap(matches) :: KvMap(matches)[k].Some?
  {
    if |matches| > 0 {
      KvMapValues(matches[..|matches| - 1]);
    }
  }

  /** A Standard line has the four fields, the level upper-cased. */
  lemma StandardShape(line: string, patterns: Patterns)
    requires patterns.standard(line).Some?
    ensures var m := patterns.standard(line).value;
      var fields := ParseLine(line, STANDARD, patterns);
      && fields.Keys == {"timestamp", "level", "source", "message"}
      && fields["level"] == Some(AsciiUpper(m.level))
      && fields["message"] == Some(m.message) && fields["source"] == Some(m.source)
  {
  }

  /** A key of the filtered map is a key whose value is present. */
  lemma PresentOnlyKey(m: map<string, Option<string>>, k: string)
    ensures k in PresentOnly(m) <==> k in m && m[k].Some?
  {
  }

  /** An Apache line always has the ip, timestamp, request, status and size. */
  lemma ApacheRequired(line: string, patterns: Patterns)
    requires patterns.apache(line).Some?
    ensures var fields := ParseLine(line, APACHE, patterns);
      forall k | k in ["ip", "timestamp", "request", "status", "size"] :: k in fields
  {
    var all := ApacheCandidates(patterns.apache(line).value);
    forall k | k in ["ip", "timestamp", "request", "status", "size"]
      ensures k in PresentOnly(all)
    {
      PresentOnlyKey(all, k);
    }
  }

  /** An Apache line has an identity or user exactly when that group is not `-`, and a
      referer or user agent exactly when that group is neither blank nor `-`. */
  lemma ApacheOptional(line: string, patterns: Patterns)
    requires patterns.apache(line).Some?
    ensures var m := patterns.apache(line).value;
      var fields := ParseLine(line, APACHE, patterns);
      && ("identity" in fields <==> m.identity != "-")
      && ("user" in fields <==> m.user != "-")
      && ("referer" in fields <==> !IsBlank(m.referer) && m.referer != "-")
      && ("user_agent" in fields <==> !IsBlank(m.userAgent) && m.userAgent != "-")
  {
    var all := ApacheCandidates(patterns.apache(line).value);
    PresentOnlyKey(all, "identity");
    PresentOnlyKey(all, "user");
    PresentOnlyKey(all, "referer");
    PresentOnlyKey(all, "user_agent");
  }

  /** An Apache line has no field but the nine. */
  lemma ApacheKeys(line: string, patterns: Patterns)
    requires patterns.apache(line).Some?
    ensures ParseLine(line, APACHE, patterns).Keys
         <= {"ip", "identity", "user", "timestamp", "request", "status", "size", "referer", "user_agent"}
  {
    var all := ApacheCandidates(patterns.apache(line).value);
    assert PresentOnly(all).Keys <= all.Keys;
  }

  lemma RunEndAt(s: string, i: nat, k: nat, p: char -> bool)
    requires i <= k <= |s|
    requires forall m | i <= m < k :: p(s[m])
    requires k < |s| ==> !p(s[k])
    ensures RunEnd(s, i, p) == k
    decreases k - i
  {
    if i < k {
      RunEndAt(s, i + 1, k, p);
    }
  }

  /** Whitespace then a message of dot characters: the message is the rest. */
  lemma SimpleRestAt(line: string, p: nat, spaces: string, message: string)
    requires p <= |line| && line[p..] == spaces + message
    requires |spaces| > 0 && forall i | 0 <= i < |spaces| :: IsRegexSpace(spaces[i])
    requires AllDot(message) && (message == "" || !IsRegexSpace(message[0]))
    ensures SimpleRest(line, p) == Some(message)
  {
    var q := p + |spaces|;
    forall m | p <= m < q ensures IsRegexSpace(line[m]) {
      assert line[m] == line[p..][m - p];
    }
    if q < |line| {
      assert line[q] == line[p..][|spaces|];
    }
    RunEndAt(line, p, q, IsRegexSpace);
    assert line[q..] == line[p..][|spaces|..];
  }

  /** `[level]`, whitespace, message matches the bracketed alternative. */
  lemma MatchBracketed(word: string, spaces: string, message: string)
    requires |word| > 0 && IsWordText(word)
    requires |spaces| > 0 && forall i | 0 <= i < |spaces| :: IsRegexSpace(spaces[i])
    requires AllDot(message) && (message == "" || !IsRegexSpace(message[0]))
    ensures MatchSimple("[" + word + "]" + spaces + message) == Some(SimpleMatch(word, "", message))
  {
    var line := "[" + word + "]" + spaces + message;
    var e := |word| + 1;
    assert line[0] == '[';
    forall m | 1 <= m < e ensures IsWordChar(line[m]) {
      assert line[m] == word[m - 1];
    }
    assert line[e] == ']';
    RunEndAt(line, 1, e, IsWordChar);
    assert line[1..e] == word;
    assert line[e + 1..] == spaces + message;
    SimpleRestAt(line, e + 1, spaces, message);
  }

  /** `[level]`, whitespace, message: the level is the bracketed word, upper-cased. */
  lemma SimpleBracketed(word: string, spaces: string, message: string)
    requires |word| > 0 && IsWordText(word)
    requires |spaces| > 0 && forall i | 0 <= i < |spaces| :: IsRegexSpace(spaces[i])
    requires AllDot(message) && (message == "" || !IsRegexSpace(message[0]))
    ensures SimpleFields("[" + word + "]" + spaces + message)
         == map["level" := Some(AsciiUpper(word)), "message" := Some(message)]
  {
    MatchBracketed(word, spaces, message);
  }

  /** `level:`, whitespace, message matches the colon alternative. */
  lemma MatchColon(word: string, spaces: string, message: string)
    requires |word| > 0 && IsWordText(word)
    requires |spaces| > 0 && forall i | 0 <= i < |spaces| :: IsRegexSpace(spaces[i])
    requires AllDot(message) && (message == "" || !IsRegexSpace(message[0]))
    ensures MatchSimple(word + ":" + spaces + message) == Some(SimpleMatch("", word, message))
  {
    var line := word + ":" + spaces + message;
    var e := |word|;
    assert line[0] == word[0];
    forall m | 0 <= m < e ensures IsWordChar(line[m]) {
      assert line[m] == word[m];
    }
    assert line[e] == ':';
    RunEndAt(line, 0, e, IsWordChar);
    assert line[..e] == word;
    assert line[e + 1..] == spaces + message;
    SimpleRestAt(line, e + 1, spaces, message);
  }

  /** `level:`, whitespace, message: the level is the word before the colon, upper-cased. */
  lemma SimpleColon(word: string, spaces: string, message: string)
    requires |word| > 0 && IsWordText(word)
    requires |spaces| > 0 && forall i | 0 <= i < |spaces| :: IsRegexSpace(spaces[i])
    requires AllDot(message) && (message == "" || !IsRegexSpace(message[0]))
    ensures SimpleFields(word + ":" + spaces + message)
         == map["level" := Some(AsciiUpper(word)), "message" := Some(message)]
  {
    MatchColon(word, spaces, message);
  }

  /** A Simple match's level comes from exactly one alternative and is a word. */
  lemma SimpleLevel(line: string)
    requires MatchSimple(line).Some?
    ensures var m := MatchSimple(line).value;
      (|m.bracketed| > 0) != (|m.plain| > 0)
      && IsWordText(if |m.bracketed| > 0 then m.bracketed else m.plain)
  {
  }

  /** `key="value"` yields the quoted text as the value. */
  lemma KvQuoted(key: string, value: string, rest: string)
    requires |key| > 0 && IsWordText(key)
    requires forall i | 0 <= i < |value| :: value[i] != '"'
    ensures KvAt(key + "=\"" + value + "\"" + rest, 0) == Some((KvMatch(key, value, ""), |key| + |value| + 3))
  {
    var line := key + "=\"" + value + "\"" + rest;
    var e := |key|;
    RunEndAt(line, 0, e, IsWordChar);
    RunEndAt(line, e + 2, e + 2 + |value|, IsNotQuote);
    assert line[0..e] == key;
    assert line[e + 2..e + 2 + |value|] == value;
  }

  /** The unquoted branch of a Key-Value match. */
  lemma KvAtBare(line: string, p: nat, e: nat, v: nat)
    requires p < e < |line| && e + 1 < v <= |line|
    requires RunEnd(line, p, IsWordChar) == e && line[e] == '=' && line[e + 1] != '"'
    requires RunEnd(line, e + 1, IsNotRegexSpace) == v
    ensures KvAt(line, p) == Some((KvMatch(line[p..e], "", line[e + 1..v]), v))
  {
  }

  /** `key=value` with an unquoted value yields the text up to the next whitespace. */
  lemma KvBare(key: string, value: string, rest: string)
    requires |key| > 0 && IsWordText(key)
    requires |value| > 0 && value[0] != '"' && forall i | 0 <= i < |value| :: !IsRegexSpace(value[i])
    requires rest == "" || IsRegexSpace(rest[0])
    ensures KvAt(key + "=" + value + rest, 0) == Some((KvMatch(key, "", value), |key| + 1 + |value|))
  {
    var line := key + "=" + value + rest;
    var e := |key|;
    RunEndAt(line, 0, e, IsWordChar);
    RunEndAt(line, e + 1, e + 1 + |value|, IsNotRegexSpace);
    assert line[0..e] == key;
    assert line[e + 1..e + 1 + |value|] == value;
    KvAtBare(line, 0, e, e + 1 + |value|);
  }

  /** The map has exactly the matched keys, each with the value of its last match. */
  lemma {:induction false} KvMapLastWins(matches: seq<KvMatch>, k: string)
    ensures k in KvMap(matches) <==> exists i | 0 <= i < |matches| :: matches[i].key == k
    ensures forall i | 0 <= i < |matches| && matches[i].key == k && (forall j | i < j < |matches| :: matches[j].key != k) ::
      k in KvMap(matches) && KvMap(matches)[k] == Some(KvValue(matches[i]))
  {
    if |matches| > 0 {
      var n := |matches| - 1;
      KvMapLastWins(matches[..n], k);
      assert forall i | 0 <= i < n :: matches[..n][i] == matches[i];
    }
  }

  // ---------------------------------------------------------------------------
  // Properties of detection and typing
  // ---------------------------------------------------------------------------

  /** RAW exactly when no candidate matches more than a third of the sample; otherwise
      the chosen format is the first candidate with the most matches. */
  lemma DetectFormatSpec(sample: seq<string>, patterns: Patterns)
    ensures var counts := FormatCounts(sample, patterns);
      var format := DetectFormat(sample, patterns);
      && (format == RAW <==> forall i | 0 <= i < 4 :: counts[i] <= |sample| / 3)
      && (format != RAW ==> exists k | 0 <= k < 4 ::
            && format == CANDIDATES[k] && counts[k] > |sample| / 3
            && (forall i | 0 <= i < k :: counts[i] < counts[k])
            && (forall i | k < i < 4 :: counts[i] <= counts[k]))
  {
    var counts := FormatCounts(sample, patterns);
    var k := FirstMax(counts);
    assert 0 <= k < 4;
  }

  /** A key that mentions "time" or "date" anywhere, in any case, is a timestamp
      column. */
  lemma MentionHint(key: string, word: string, i: nat)
    requires word == "time" || word == "date"
    requires i + |word| <= |key| && AsciiLower(key)[i..i + |word|] == word
    ensures KeyHint(key) == Some(TIMESTAMP)
  {
    ContainsAt(AsciiLower(key), word, i);
  }

  /** The names of the integer columns, in the order the hints try them. */
  predicate IsIntegerName(lowerKey: string) {
    lowerKey == "status" || lowerKey == "code" || lowerKey == "size" || lowerKey == "bytes" || lowerKey == "count"
  }

  predicate MentionsTime(lowerKey: string) {
    Contains(lowerKey, "time") || Contains(lowerKey, "date")
  }

  /** None of the six names of the later hints mentions "time" or "date". */
  lemma NamesDoNotMentionTime(lowerKey: string)
    requires lowerKey == "level" || IsIntegerName(lowerKey)
    ensures !MentionsTime(lowerKey)
  {
    if lowerKey == "level" || lowerKey == "status" || lowerKey == "bytes" {
      NotContainsChar(lowerKey, "time", 2);
    } else if lowerKey == "count" {
      NotContainsChar(lowerKey, "time", 1);
    } else {
      NotContainsChar(lowerKey, "time", 0);
    }
    if lowerKey == "code" {
      NotContainsChar(lowerKey, "date", 1);
    } else {
      NotContainsChar(lowerKey, "date", 0);
    }
  }

  /** The name hints for every key, on its lower case: a mention of "time" or "date"
      makes a timestamp column, `level` a text column, `status`, `code`, `size`,
      `bytes` and `count` integer columns, and any other key has no hint. */
  lemma KeyHintSpec(key: string)
    ensures var lowerKey := AsciiLower(key);
      && (KeyHint(key) == Some(TIMESTAMP) <==> MentionsTime(lowerKey))
      && (KeyHint(key) == Some(STRING) <==> lowerKey == "level")
      && (KeyHint(key) == Some(INTEGER) <==> IsIntegerName(lowerKey))
      && (KeyHint(key) == None <==> !MentionsTime(lowerKey) && lowerKey != "level" && !IsIntegerName(lowerKey))
  {
    var lowerKey := AsciiLower(key);
    if lowerKey == "level" || IsIntegerName(lowerKey) {
      NamesDoNotMentionTime(lowerKey);
    }
  }

  /** A key without a hint takes its type from its values. */
  lemma UnhintedKey(key: string, values: seq<string>)
    requires var lowerKey := AsciiLower(key);
      !MentionsTime(lowerKey) && lowerKey != "level" && !IsIntegerName(lowerKey)
    ensures InferColumnType(key, values) == ValuesType(values)
  {
    KeyHintSpec(key);
  }

  lemma NotContainsChar(s: string, sub: string, j: nat)
    requires j < |sub| && forall i | 0 <= i < |s| :: s[i] != sub[j]
    ensures !Contains(s, sub)
  {
    if Contains(s, sub) {
      ContainsHasChar(s, sub, j);
    }
  }

  /** Without a name hint the type is the most frequent inferred type of the values
      (STRING without values). */
  lemma InferFromValues(key: string, values: seq<string>)
    requires KeyHint(key).None?
    ensures var types := seq(|values|, i requires 0 <= i < |values| => Infer(Some(values[i])));
      && (|values| == 0 ==> InferColumnType(key, values) == STRING)
      && (|values| > 0 ==>
            InferColumnType(key, values) in types
            && forall t | t in types :: Count(types, t) <= Count(types, InferColumnType(key, values)))
  {
    var types := seq(|values|, i requires 0 <= i < |values| => Infer(Some(values[i])));
    forall t | t in types ensures Count(types, t) <= Count(types, InferColumnType(key, values)) {
      MajorityIsMostFrequent(types, t);
    }
  }

  // ---------------------------------------------------------------------------
  // Properties of rows and schema
  // ---------------------------------------------------------------------------

  /** Every line becomes a row: one row per line, in order. */
  lemma LogRowsAll(lines: seq<string>, format: LogFormat, patterns: Patterns)
    ensures |LogRows(lines, format, patterns)| == |lines|
    ensures forall i | 0 <= i < |lines| :: LogRows(lines, format, patterns)[i] == DataRow(ParseLine(lines[i], format, patterns))
  {
    var maps := Map(lines, LineParser(format, patterns));
    forall i | 0 <= i < |maps| ensures maps[i] != map[] {
      ParseLineNonEmpty(lines[i], format, patterns);
    }
    NonEmptyRowsAll(maps);
  }

  lemma {:induction false} NonEmptyRowsAll(maps: seq<map<string, Option<string>>>)
    requires forall i | 0 <= i < |maps| :: maps[i] != map[]
    ensures |NonEmptyRows(maps)| == |maps|
    ensures forall i | 0 <= i < |maps| :: NonEmptyRows(maps)[i] == DataRow(maps[i])
  {
    if |maps| > 0 {
      var n := |maps| - 1;
      assert forall i | 0 <= i < n :: maps[..n][i] == maps[i];
      NonEmptyRowsAll(maps[..n]);
    }
  }

  lemma {:induction false} KeysOfMembers(rows: seq<DataRow>, k: string)
    ensures k in KeysOf(rows) <==> exists i | 0 <= i < |rows| :: k in rows[i].values
  {
    if |rows| > 0 {
      var n := |rows| - 1;
      KeysOfMembers(rows[..n], k);
      assert forall i | 0 <= i < n :: rows[..n][i] == rows[i];
    }
  }

  /** RAW lines give the single column `line`. */
  lemma RawSchema(lines: seq<string>, patterns: Patterns)
    requires |lines| > 0
    ensures var rows := LogRows(lines, RAW, patterns);
      LogColumns(SortedKeys(KeysOf(rows)), rows) == [ColumnInfo("line", InferColumnType("line", SampleValues(Take(rows, SAMPLE_SIZE), "line")), true)]
  {
    var rows := LogRows(lines, RAW, patterns);
    RawKeys(lines, patterns);
    SortedSingleton("line");
    var cols := LogColumns(["line"], rows);
    assert |cols| == 1;
  }

  /** RAW rows have the one key `line`. */
  lemma RawKeys(lines: seq<string>, patterns: Patterns)
    requires |lines| > 0
    ensures KeysOf(LogRows(lines, RAW, patterns)) == {"line"}
  {
    var rows := LogRows(lines, RAW, patterns);
    LogRowsAll(lines, RAW, patterns);
    forall k ensures k in KeysOf(rows) <==> k == "line" {
      KeysOfMembers(rows, k);
      assert rows[0].values == LineOnly(lines[0]);
    }
  }

  lemma SortedSingleton(key: string)
    ensures SortedKeys({key}) == [key]
  {
    assert IsSortedOf([key], {key});
    SortedOfUnique(SortedKeys({key}), [key], {key});
  }

  // ---------------------------------------------------------------------------
  // Properties of the flow
  // ---------------------------------------------------------------------------

  lemma LoadWellFormed(lines: seq<string>, format: LogFormat, patterns: Patterns, maxRows: int)
    ensures WellFormed(LoadEvents(lines, format, patterns, maxRows))
  {
    var n := Min(maxRows, |lines|);
    if n >= 0 {
      var last := if LogRows(lines[..n], format, patterns) == [] then Error("Could not parse any log lines")
        else Success(LogData(lines, format, patterns, n));
      ThenTerminal(RowProgress(n, |lines|), last);
    }
  }

  /** The events are reports ending in exactly one success or error. */
  lemma LogWellFormed(content: string, patterns: Patterns, maxRows: int)
    ensures WellFormed(LogEvents(content, patterns, maxRows))
  {
    var lines := NonBlankLines(content);
    if !IsBlank(content) && |lines| > 0 {
      var format := DetectFormat(Take(lines, SAMPLE_SIZE), patterns);
      LoadWellFormed(lines, format, patterns, maxRows);
      ReportThen(Progress(0, Some(|lines|), Some("Parsing with " + FormatName(format) + " format...")),
                 LoadEvents(lines, format, patterns, maxRows));
      ReportThen(Progress(0, Some(|lines|), Some("Detecting log format...")),
                 [Progress(0, Some(|lines|), Some("Parsing with " + FormatName(format) + " format..."))]
                 + LoadEvents(lines, format, patterns, maxRows));
    }
  }

  /** The last event once the format is chosen: an error exactly when no line is to be
      loaded, with the message of the failing `take` for a negative limit. */
  lemma LoadErrors(lines: seq<string>, format: LogFormat, patterns: Patterns, maxRows: int)
    requires |lines| > 0
    ensures var events := LoadEvents(lines, format, patterns, maxRows);
      && |events| > 0
      && (events[|events| - 1].Error? <==> maxRows <= 0)
      && (maxRows < 0 ==> events == [Error("Failed to parse log file: " + NegativeTakeMessage(maxRows))])
      && (maxRows == 0 ==> events == [Error("Could not parse any log lines")])
  {
    var n := Min(maxRows, |lines|);
    if n >= 0 {
      LogRowsAll(lines[..n], format, patterns);
      LoadWellFormed(lines, format, patterns, maxRows);
    }
  }

  /** The parse fails exactly for blank content, with "File is empty", and for a row
      limit of zero or less; "No log lines found" is unreachable. */
  lemma LogErrors(content: string, patterns: Patterns, maxRows: int)
    ensures var events := LogEvents(content, patterns, maxRows);
      && |events| > 0
      && (events[|events| - 1].Error? <==> IsBlank(content) || maxRows <= 0)
      && (IsBlank(content) ==> events == [Error("File is empty")])
      && (!IsBlank(content) && maxRows < 0 ==>
            events[|events| - 1] == Error("Failed to parse log file: " + NegativeTakeMessage(maxRows)))
      && (!IsBlank(content) && maxRows == 0 ==> events[|events| - 1] == Error("Could not parse any log lines"))
      && events[|events| - 1] != Error("No log lines found")
  {
    if !IsBlank(content) {
      NonBlankLinesEmptyIff(content);
      var lines := NonBlankLines(content);
      var format := DetectFormat(Take(lines, SAMPLE_SIZE), patterns);
      var load := LoadEvents(lines, format, patterns, maxRows);
      LoadErrors(lines, format, patterns, maxRows);
      var parsing := [Progress(0, Some(|lines|), Some("Parsing with " + FormatName(format) + " format..."))] + load;
      LastOfConcat([Progress(0, Some(|lines|), Some("Parsing with " + FormatName(format) + " format..."))], load);
      LastOfConcat([Progress(0, Some(|lines|), Some("Detecting log format..."))], parsing);
      if maxRows > 0 {
        LoadWellFormed(lines, format, patterns, maxRows);
      }
    }
  }

  /** The data of a load: every one of the first `n` lines is a row, in order; the
      columns are the sorted union of the row keys, all nullable; the totals count
      every line and the sample flag says whether lines were left out. */
  lemma LogDataShape(lines: seq<string>, format: LogFormat, patterns: Patterns, n: nat)
    requires n <= |lines|
    ensures var data := LogData(lines, format, patterns, n);
      && data.totalRowCount == |lines|
      && data.LoadedRowCount() == n
      && (data.isSampled <==> data.LoadedRowCount() < data.totalRowCount)
      && (forall i | 0 <= i < n :: data.rows[i] == DataRow(ParseLine(lines[i], format, patterns)))
      && IsSortedOf(data.schema.ColumnNames(), KeysOf(data.rows))
      && forall c | c in data.schema.columns :: c.nullable
  {
    LogRowsAll(lines[..n], format, patterns);
    var rows := LogRows(lines[..n], format, patterns);
    var names := SortedKeys(KeysOf(rows));
    var data := LogData(lines, format, patterns, n);
    assert data.schema.ColumnNames() == names by {
      assert forall i | 0 <= i < |names| :: data.schema.ColumnNames()[i] == names[i];
    }
  }

  /** On success the events are the two reports, one report per 100 lines and the data
      of the first `min(maxRows, total)` lines, as the data lemma describes; the total
      is what `countRows` says. */
  lemma LogSuccess(content: string, patterns: Patterns, maxRows: int)
    requires !IsBlank(content) && maxRows > 0
    ensures |NonBlankLines(content)| > 0
    ensures var events := LogEvents(content, patterns, maxRows);
      var lines := NonBlankLines(content);
      var format := DetectFormat(Take(lines, SAMPLE_SIZE), patterns);
      var loaded := Min(maxRows, |lines|);
      && |events| == 3 + loaded / 100
      && events[|events| - 1] == Success(LogData(lines, format, patterns, loaded))
      && |lines| == CountRows(content)
  {
    NonBlankLinesEmptyIff(content);
    var lines := NonBlankLines(content);
    var format := DetectFormat(Take(lines, SAMPLE_SIZE), patterns);
    var n := Min(maxRows, |lines|);
    LogRowsAll(lines[..n], format, patterns);
    RowProgressShape(n, |lines|);
    var load := LoadEvents(lines, format, patterns, maxRows);
    var parsing := [Progress(0, Some(|lines|), Some("Parsing with " + FormatName(format) + " format..."))] + load;
    LastOfConcat([Progress(0, Some(|lines|), Some("Parsing with " + FormatName(format) + " format..."))], load);
    LastOfConcat([Progress(0, Some(|lines|), Some("Detecting log format..."))], parsing);
  }
}
