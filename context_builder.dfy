/**
 * Assembly of the model's context: the schema, statistics and data-sample blocks,
 * each truncated to its share of the token budget, and the full prompt around a
 * question.
 *
 * The analytics system prompt is a constant of the prompt templates; it is the
 * parameter `systemPrompt`. Number formatting inside the statistics summary is the
 * parameter `formats`, and the seeded shuffle of the sampler is `shuffle`.
 */
module ContextBuilder {
  import opened Options
  import opened Text
  import opened ParsedData
  import opened Analytics
  import Statistics
  import Sampler
  import TokenBudget
  import ParseEvents

  /** The separator between the cells of a table line. */
  const CELL_SEPARATOR: string := " | "
  /** Cells longer than this are cut. */
  const MAX_CELL_LENGTH: nat := 50
  /** Separator segments are at most this long. */
  const MAX_RULE_LENGTH: nat := 15

  // ---------------------------------------------------------------------------
  // Schema block
  // ---------------------------------------------------------------------------

  /** The line of one column: its name, its type's display name, and `, nullable` for
      a nullable column. */
  function ColumnLine(col: ColumnInfo): string {
    "- " + col.name + ": " + DisplayName(col.columnType) + (if col.nullable then ", nullable" else "")
  }

  function SchemaHeading(schema: DataSchema): string {
    "Columns (" + IntToString(schema.ColumnCount()) + "):"
  }

  /** The lines `buildSchemaDescription` writes: the heading, then the line of each
      column, in schema order. */
  function SchemaLines(schema: DataSchema): seq<string> {
    [SchemaHeading(schema)] + Map(schema.columns, ColumnLine)
  }

  /** `buildSchemaDescription`: the heading, then one line per column. */
  method BuildSchemaDescription(schema: DataSchema) returns (text: string)
    ensures text == TerminatedLines(SchemaLines(schema))
  {
    var cols := schema.columns;
    text := "";
    ghost var written: seq<string> := [];
    text := Statistics.AppendLine(text, written, SchemaHeading(schema));
    written := written + [SchemaHeading(schema)];
    for i := 0 to |cols|
      invariant written == [SchemaHeading(schema)] + Map(cols[..i], ColumnLine)
      invariant text == TerminatedLines(written)
    {
      var line := ColumnLine(cols[i]);
      text := Statistics.AppendLine(text, written, line);
      MapSnoc(cols, i, ColumnLine);
      ConcatAssoc([SchemaHeading(schema)], Map(cols[..i], ColumnLine), [line]);
      written := written + [line];
    }
    assert cols[..|cols|] == cols;
  }

  /** The schema block: its heading counts the columns, and line `i + 1` describes
      column `i`. */
  lemma SchemaLayout(schema: DataSchema)
    ensures var lines := SchemaLines(schema);
      && |lines| == 1 + |schema.columns|
      && lines[0] == "Columns (" + IntToString(|schema.columns|) + "):"
      && forall i | 0 <= i < |schema.columns| :: lines[i + 1] == ColumnLine(schema.columns[i])
  {
  }

  predicate EndsWith(s: string, suffix: string) {
    |suffix| <= |s| && s[|s| - |suffix|..] == suffix
  }

  /** A column line names the column and its type, and it ends in `, nullable`
      exactly when the column is nullable (no display name ends like that). */
  lemma ColumnLineSpec(col: ColumnInfo)
    ensures StartsWith(ColumnLine(col), "- " + col.name + ": " + DisplayName(col.columnType))
    ensures EndsWith(ColumnLine(col), ", nullable") <==> col.nullable
  {
    var base := "- " + col.name + ": " + DisplayName(col.columnType);
    var line := ColumnLine(col);
    if col.nullable {
      assert line == base + ", nullable";
      assert line[|line| - 10..] == ", nullable";
    } else {
      assert line == base;
      var d := DisplayName(col.columnType);
      assert line[|line| - 1] == d[|d| - 1] != 'e';
    }
    assert line[..|base|] == base;
  }

  /** With no line break in a column name, the schema block splits back into exactly
      its lines. */
  lemma SchemaRoundTrip(schema: DataSchema)
    requires forall i | 0 <= i < |schema.columns| :: NoBreaks(schema.columns[i].name)
    ensures Lines(TerminatedLines(SchemaLines(schema))) == SchemaLines(schema) + [""]
  {
    SchemaLinesUnbroken(schema);
    LinesOfTerminated(SchemaLines(schema));
  }

  lemma SchemaLinesUnbroken(schema: DataSchema)
    requires forall i | 0 <= i < |schema.columns| :: NoBreaks(schema.columns[i].name)
    ensures AllNoBreaks(SchemaLines(schema))
  {
    var columnLines := Map(schema.columns, ColumnLine);
    Statistics.IntTextUnbroken(|schema.columns|);
    Statistics.NoBreaksConcat("Columns (", IntToString(|schema.columns|));
    Statistics.NoBreaksConcat("Columns (" + IntToString(|schema.columns|), "):");
    assert AllNoBreaks([SchemaHeading(schema)]);
    forall i | 0 <= i < |schema.columns| ensures NoBreaks(columnLines[i]) {
      ColumnLineUnbroken(schema.columns[i]);
    }
    AllNoBreaksConcat([SchemaHeading(schema)], columnLines);
  }

  lemma ColumnLineUnbroken(col: ColumnInfo)
    requires NoBreaks(col.name)
    ensures NoBreaks(ColumnLine(col))
  {
    Statistics.NoBreaksConcat("- ", col.name);
    Statistics.NoBreaksConcat("- " + col.name, ": ");
    Statistics.DisplayNameUnbroken(col.columnType);
    Statistics.NoBreaksConcat("- " + col.name + ": ", DisplayName(col.columnType));
    Statistics.NoBreaksConcat("- " + col.name + ": " + DisplayName(col.columnType), if col.nullable then ", nullable" else "");
  }

  // ---------------------------------------------------------------------------
  // Statistics block
  // ---------------------------------------------------------------------------

  function StatisticsHeading(totalRows: int, strategy: SamplingStrategy): seq<string> {
    ["Total rows: " + IntToString(totalRows), "Sampling: " + StrategyName(strategy)]
  }

  /** The lines `buildStatisticsSummary` writes: the heading, and when statistics are
      present a blank line and the lines of their summary. */
  function StatisticsLines(statistics: Option<Statistics.DataStatistics>, totalRows: int,
                           strategy: SamplingStrategy, formats: Statistics.Formats): seq<string> {
    StatisticsHeading(totalRows, strategy)
    + match statistics
      case None => []
      case Some(stats) => [""] + Statistics.SummaryLines(stats, formats)
  }

  /** `buildStatisticsSummary` */
  method BuildStatisticsSummary(statistics: Option<Statistics.DataStatistics>, totalRows: int,
                                strategy: SamplingStrategy, formats: Statistics.Formats)
    returns (text: string)
    ensures text == TerminatedLines(StatisticsLines(statistics, totalRows, strategy, formats))
  {
    var heading := StatisticsHeading(totalRows, strategy);
    text := "";
    ghost var written: seq<string> := [];
    text := Statistics.AppendLine(text, written, heading[0]);
    written := written + [heading[0]];
    text := Statistics.AppendLine(text, written, heading[1]);
    written := written + [heading[1]];
    assert written == heading;
    if statistics.Some? {
      text := Statistics.AppendLine(text, written, "");
      written := written + [""];
      var summary := Statistics.ToSummaryString(statistics.value, formats);
      text := text + summary;
      TerminatedLinesConcat(written, Statistics.SummaryLines(statistics.value, formats));
      ConcatAssoc(heading, [""], Statistics.SummaryLines(statistics.value, formats));
    } else {
      assert heading + [] == heading;
    }
  }

  /** The statistics block: the total and the strategy, and for present statistics a
      blank line followed by the summary's own lines. */
  lemma StatisticsLayout(statistics: Option<Statistics.DataStatistics>, totalRows: int,
                         strategy: SamplingStrategy, formats: Statistics.Formats)
    ensures var lines := StatisticsLines(statistics, totalRows, strategy, formats);
      && |lines| >= 2
      && lines[0] == "Total rows: " + IntToString(totalRows)
      && lines[1] == "Sampling: " + StrategyName(strategy)
      && (statistics.None? ==> |lines| == 2)
      && (statistics.Some? ==> lines[2..] == [""] + Statistics.SummaryLines(statistics.value, formats))
  {
    var lines := StatisticsLines(statistics, totalRows, strategy, formats);
    var heading := StatisticsHeading(totalRows, strategy);
    if statistics.Some? {
      var rest := [""] + Statistics.SummaryLines(statistics.value, formats);
      assert lines == heading + rest;
      assert lines[2..] == rest;
    }
  }

  /** With no line breaks inside the summary, the statistics block splits back into
      exactly its lines. */
  lemma StatisticsRoundTrip(statistics: Option<Statistics.DataStatistics>, totalRows: int,
                            strategy: SamplingStrategy, formats: Statistics.Formats)
    requires statistics.Some? ==>
      forall c | 0 <= c < |statistics.value.columnStats| :: Statistics.ColumnUnbroken(statistics.value.columnStats[c], formats)
    ensures var lines := StatisticsLines(statistics, totalRows, strategy, formats);
      Lines(TerminatedLines(lines)) == lines + [""]
  {
    StatisticsLinesUnbroken(statistics, totalRows, strategy, formats);
    LinesOfTerminated(StatisticsLines(statistics, totalRows, strategy, formats));
  }

  lemma StatisticsLinesUnbroken(statistics: Option<Statistics.DataStatistics>, totalRows: int,
                                strategy: SamplingStrategy, formats: Statistics.Formats)
    requires statistics.Some? ==>
      forall c | 0 <= c < |statistics.value.columnStats| :: Statistics.ColumnUnbroken(statistics.value.columnStats[c], formats)
    ensures AllNoBreaks(StatisticsLines(statistics, totalRows, strategy, formats))
  {
    var heading := StatisticsHeading(totalRows, strategy);
    Statistics.IntTextUnbroken(totalRows);
    Statistics.NoBreaksConcat("Total rows: ", IntToString(totalRows));
    StrategyNameUnbroken(strategy);
    Statistics.NoBreaksConcat("Sampling: ", StrategyName(strategy));
    assert AllNoBreaks(heading);
    if statistics.Some? {
      var summary := Statistics.SummaryLines(statistics.value, formats);
      Statistics.SummaryLinesUnbroken(statistics.value, formats);
      assert AllNoBreaks([""]);
      AllNoBreaksConcat([""], summary);
      AllNoBreaksConcat(heading, [""] + summary);
    } else {
      assert heading + [] == heading;
    }
  }

  lemma StrategyNameUnbroken(strategy: SamplingStrategy)
    ensures NoBreaks(StrategyName(strategy))
  {
  }

  // ---------------------------------------------------------------------------
  // Data-sample block
  // ---------------------------------------------------------------------------

  /** The line before the table, and a blank line, for the sampled strategies. */
  function Preamble(strategy: SamplingStrategy, rowCount: int): seq<string> {
    match strategy
    case AGGREGATED =>
      ["(Data too large for full sample, showing " + IntToString(rowCount) + " representative rows)", ""]
    case STATISTICAL => ["(Sampled " + IntToString(rowCount) + " rows from dataset)", ""]
    case FULL_DATA => []
  }

  /** `row[col] ?: ""`, cut to 47 characters and an ellipsis when longer than 50. */
  function CellText(value: Option<string>): (cell: string)
    ensures |cell| <= MAX_CELL_LENGTH
  {
    var v := if value.Some? then value.value else "";
    if |v| > MAX_CELL_LENGTH then Take(v, 47) + "..." else v
  }

  /** A missing value is an empty cell; a value of at most 50 characters is shown
      verbatim, a longer one as its first 47 characters and an ellipsis. */
  lemma CellTextSpec(value: Option<string>)
    ensures value.None? ==> CellText(value) == ""
    ensures value.Some? && |value.value| <= MAX_CELL_LENGTH ==> CellText(value) == value.value
    ensures value.Some? && |value.value| > MAX_CELL_LENGTH ==>
      CellText(value) == value.value[..47] + "..." && |CellText(value)| == MAX_CELL_LENGTH
  {
  }

  function HeaderLine(names: seq<string>): string {
    Join(names, CELL_SEPARATOR)
  }

  /** The dashes under one column name. */
  function Rule(name: string): (rule: string)
    ensures |rule| == if |name| < MAX_RULE_LENGTH then |name| else MAX_RULE_LENGTH
    ensures forall i | 0 <= i < |rule| :: rule[i] == '-'
  {
    Repeat('-', ParseEvents.Min(|name|, MAX_RULE_LENGTH))
  }

  function SeparatorLine(names: seq<string>): string {
    Join(seq(|names|, j requires 0 <= j < |names| => Rule(names[j])), CELL_SEPARATOR)
  }

  /** The cells of one row, one per column name. */
  function Cells(row: DataRow, names: seq<string>): (cells: seq<string>)
    ensures |cells| == |names|
  {
    seq(|names|, j requires 0 <= j < |names| => CellText(row.Get(names[j])))
  }

  function RowLine(row: DataRow, names: seq<string>): string {
    Join(Cells(row, names), CELL_SEPARATOR)
  }

  /** `RowLine` for fixed column names. */
  function RowLineOf(names: seq<string>): DataRow -> string {
    row => RowLine(row, names)
  }

  /** The table lines of the rows, one per row in order. */
  function RowLines(rows: seq<DataRow>, names: seq<string>): seq<string> {
    Map(rows, RowLineOf(names))
  }

  /** The lines `buildDataSample` writes for a non-empty sample. */
  function SampleLines(schema: DataSchema, rows: seq<DataRow>, strategy: SamplingStrategy): seq<string> {
    var names := schema.ColumnNames();
    Preamble(strategy, |rows|) + [HeaderLine(names), SeparatorLine(names)] + RowLines(rows, names)
  }

  /** The text of `buildDataSample`. */
  function SampleText(schema: DataSchema, rows: seq<DataRow>, strategy: SamplingStrategy): string {
    if |rows| == 0 then "No data available" else TerminatedLines(SampleLines(schema, rows, strategy))
  }

  /** The `when (strategy)` at the start of `buildDataSample`. */
  method WritePreamble(strategy: SamplingStrategy, rowCount: int) returns (text: string, ghost written: seq<string>)
    ensures written == Preamble(strategy, rowCount)
    ensures text == TerminatedLines(written)
  {
    text := "";
    written := [];
    match strategy {
      case AGGREGATED =>
        var line := "(Data too large for full sample, showing " + IntToString(rowCount) + " representative rows)";
        text := Statistics.AppendLine(text, written, line);
        written := written + [line];
        text := Statistics.AppendLine(text, written, "");
        written := written + [""];
      case STATISTICAL =>
        var line := "(Sampled " + IntToString(rowCount) + " rows from dataset)";
        text := Statistics.AppendLine(text, written, line);
        written := written + [line];
        text := Statistics.AppendLine(text, written, "");
        written := written + [""];
      case FULL_DATA =>
    }
  }

  /** `buildDataSample`: the preamble, the header and separator, then one line per row. */
  method BuildDataSample(schema: DataSchema, rows: seq<DataRow>, strategy: SamplingStrategy)
    returns (text: string)
    ensures |rows| == 0 ==> text == "No data available"
    ensures |rows| > 0 ==> text == TerminatedLines(SampleLines(schema, rows, strategy))
  {
    if |rows| == 0 {
      return "No data available";
    }
    ghost var written: seq<string>;
    text, written := WritePreamble(strategy, |rows|);
    var names := schema.ColumnNames();
    var header := HeaderLine(names);
    text := Statistics.AppendLine(text, written, header);
    written := written + [header];
    var separator := SeparatorLine(names);
    text := Statistics.AppendLine(text, written, separator);
    written := written + [separator];
    ghost var table := Preamble(strategy, |rows|) + [header, separator];
    assert written == table;
    for i := 0 to |rows|
      invariant written == table + RowLines(rows[..i], names)
      invariant text == TerminatedLines(written)
    {
      var line := Join(Cells(rows[i], names), CELL_SEPARATOR);
      text := Statistics.AppendLine(text, written, line);
      MapSnoc(rows, i, RowLineOf(names));
      ConcatAssoc(table, RowLines(rows[..i], names), [line]);
      written := written + [line];
    }
    assert rows[..|rows|] == rows;
  }

  /** The preamble: none for full data, otherwise the strategy's note with the row
      count, then a blank line. */
  lemma PreambleSpec(strategy: SamplingStrategy, rowCount: int)
    ensures var pre := Preamble(strategy, rowCount);
      && (|pre| == 0 <==> strategy == FULL_DATA)
      && (strategy == AGGREGATED ==>
            pre == ["(Data too large for full sample, showing " + IntToString(rowCount) + " representative rows)", ""])
      && (strategy == STATISTICAL ==> pre == ["(Sampled " + IntToString(rowCount) + " rows from dataset)", ""])
  {
  }

  /** The sample block: the preamble, then the header of column names joined by
      ` | `, the separator, and one line per row, in order. */
  lemma SampleLayout(schema: DataSchema, rows: seq<DataRow>, strategy: SamplingStrategy)
    ensures var lines := SampleLines(schema, rows, strategy);
      var pre := Preamble(strategy, |rows|);
      var p := |pre|;
      var names := schema.ColumnNames();
      && |lines| == p + 2 + |rows|
      && lines[..p] == pre
      && lines[p] == Join(names, " | ")
      && lines[p + 1] == SeparatorLine(names)
      && forall i | 0 <= i < |rows| :: lines[p + 2 + i] == RowLine(rows[i], names)
  {
    var names := schema.ColumnNames();
    var pre := Preamble(strategy, |rows|);
    var table := pre + [HeaderLine(names), SeparatorLine(names)];
    var body := RowLines(rows, names);
    IndexAfter(table, body);
    IndexAfter(pre, [HeaderLine(names), SeparatorLine(names)]);
    SliceOfLeft(table, body, 0, |pre|);
    SliceOfLeft(pre, [HeaderLine(names), SeparatorLine(names)], 0, |pre|);
  }

  /** The elements after a prefix are those of the second part. */
  lemma IndexAfter<T>(a: seq<T>, b: seq<T>)
    ensures forall i | 0 <= i < |b| :: (a + b)[|a| + i] == b[i]
  {
  }

  /** The segments of the separator line and the cells of a row line, one per column:
      dashes no longer than the column name and never more than 15, and cells that
      show the row's value for the column, missing values as empty cells. */
  lemma TableCells(row: DataRow, names: seq<string>)
    ensures forall j | 0 <= j < |names| ::
      var rule := Rule(names[j]);
      && |rule| <= |names[j]| && |rule| <= MAX_RULE_LENGTH
      && (|names[j]| <= MAX_RULE_LENGTH ==> |rule| == |names[j]|)
    ensures forall j | 0 <= j < |names| ::
      var cell := Cells(row, names)[j];
      && |cell| <= MAX_CELL_LENGTH
      && (names[j] !in row.values ==> cell == "")
      && (names[j] in row.values && row.values[names[j]].None? ==> cell == "")
      && (names[j] in row.values && row.values[names[j]].Some? && |row.values[names[j]].value| <= MAX_CELL_LENGTH
          ==> cell == row.values[names[j]].value)
  {
    forall j | 0 <= j < |names| {
      CellTextSpec(row.Get(names[j]));
    }
  }

  // ---------------------------------------------------------------------------
  // The context and the full prompt
  // ---------------------------------------------------------------------------

  /** `truncateToTokens` with one of the section budgets, which always succeeds. */
  function Truncated(text: string, tokens: int): (r: string)
    requires 1 <= tokens < 0x2000_0000
    ensures |r| <= 4 * tokens
  {
    TokenBudget.TruncateExact(text, tokens);
    TokenBudget.TruncateToTokens(text, tokens).value
  }

  /** The rows `sample(data)` gives with its default maximum. */
  function SampledRows(data: ParsedData, shuffle: nat -> seq<nat>): seq<DataRow>
    requires Sampler.IsShuffle(shuffle)
  {
    Sampler.SampleDefault(data, shuffle);
    Sampler.Sample(data, Sampler.STATISTICAL_SAMPLE_SIZE, shuffle).value
  }

  /** `buildContext`: each block built and truncated to its budget, the estimated
      tokens of the blocks plus the system prompt's and the question's budgets. */
  method BuildContext(data: ParsedData, statistics: Option<Statistics.DataStatistics>, systemPrompt: string,
                      shuffle: nat -> seq<nat>, formats: Statistics.Formats)
    returns (context: AnalyticsContext)
    requires Sampler.IsShuffle(shuffle)
    ensures var strategy := ForRowCount(data.totalRowCount);
      && context.systemPrompt == systemPrompt
      && context.schemaDescription == Truncated(TerminatedLines(SchemaLines(data.schema)), SCHEMA_BUDGET)
      && context.statisticsSummary
         == Truncated(TerminatedLines(StatisticsLines(statistics, data.totalRowCount, strategy, formats)), STATISTICS_BUDGET)
      && context.dataSample
         == Truncated(SampleText(data.schema, SampledRows(data, shuffle), strategy), DATA_SAMPLE_BUDGET)
    ensures |context.schemaDescription| <= TokenBudget.SchemaCharLimit()
    ensures |context.statisticsSummary| <= TokenBudget.StatisticsCharLimit()
    ensures |context.dataSample| <= TokenBudget.DataSampleCharLimit()
    ensures context.estimatedTokens
      == TokenBudget.EstimateTokens(context.schemaDescription) + TokenBudget.EstimateTokens(context.statisticsSummary)
         + TokenBudget.EstimateTokens(context.dataSample) + SYSTEM_PROMPT_BUDGET + QUESTION_BUDGET
    ensures context.estimatedTokens <= TOTAL_TOKEN_BUDGET - BUFFER
    ensures TokenBudget.FitsWithinBudget(context.estimatedTokens)
  {
    var strategy := ForRowCount(data.totalRowCount);
    var schemaDescription := BuildSchemaDescription(data.schema);
    var truncatedSchema := Truncated(schemaDescription, SCHEMA_BUDGET);
    var statisticsSummary := BuildStatisticsSummary(statistics, data.totalRowCount, strategy, formats);
    var truncatedStats := Truncated(statisticsSummary, STATISTICS_BUDGET);
    var sampledRows := SampledRows(data, shuffle);
    var dataSample := BuildDataSample(data.schema, sampledRows, strategy);
    var truncatedSample := Truncated(dataSample, DATA_SAMPLE_BUDGET);
    var totalTokens := TokenBudget.EstimateTokens(truncatedSchema) + TokenBudget.EstimateTokens(truncatedStats)
      + TokenBudget.EstimateTokens(truncatedSample) + SYSTEM_PROMPT_BUDGET + QUESTION_BUDGET;
    context := AnalyticsContext(systemPrompt, truncatedSchema, truncatedStats, truncatedSample, totalTokens);
  }

  /** A block cut to a section budget still consists of whole lines, a prefix of the
      block's own, and an unfinished last line. */
  lemma TruncatedSplits(text: string, lines: seq<string>, last: string, tokens: int)
    returns (head: seq<string>, rest: string)
    requires SplitsInto(text, lines, last) && 1 <= tokens < 0x2000_0000
    ensures SplitsInto(Truncated(text, tokens), head, rest)
    ensures |head| <= |lines| && head == lines[..|head|]
  {
    TokenBudget.TruncateExact(text, tokens);
    if |text| <= 4 * tokens {
      head, rest := lines, last;
    } else {
      var h, r := PrefixSplits(lines, last, 4 * tokens - 3);
      assert NoBreaks("...");
      AppendSplits(text[..4 * tokens - 3], h, r, "...");
      head, rest := h, r + "...";
    }
  }

  /** No value of the row holds a line break. */
  predicate RowUnbroken(row: DataRow) {
    forall k | k in row.values && row.values[k].Some? :: NoBreaks(row.values[k].value)
  }

  lemma CellUnbroken(row: DataRow, name: string)
    requires RowUnbroken(row)
    ensures NoBreaks(CellText(row.Get(name)))
  {
    var v := if row.Get(name).Some? then row.Get(name).value else "";
    if |v| > MAX_CELL_LENGTH {
      assert NoBreaks(Take(v, 47)) by {
        assert forall i | 0 <= i < 47 :: Take(v, 47)[i] == v[i];
      }
      Statistics.NoBreaksConcat(Take(v, 47), "...");
    }
  }

  lemma PreambleUnbroken(strategy: SamplingStrategy, rowCount: int)
    ensures AllNoBreaks(Preamble(strategy, rowCount))
  {
    var n := IntToString(rowCount);
    Statistics.IntTextUnbroken(rowCount);
    Statistics.NoBreaksConcat("(Data too large for full sample, showing ", n);
    Statistics.NoBreaksConcat("(Data too large for full sample, showing " + n, " representative rows)");
    Statistics.NoBreaksConcat("(Sampled ", n);
    Statistics.NoBreaksConcat("(Sampled " + n, " rows from dataset)");
  }

  /** With unbroken column names and values, no line of the sample block holds a
      break. */
  lemma SampleLinesUnbroken(schema: DataSchema, rows: seq<DataRow>, strategy: SamplingStrategy)
    requires forall i | 0 <= i < |schema.columns| :: NoBreaks(schema.columns[i].name)
    requires forall i | 0 <= i < |rows| :: RowUnbroken(rows[i])
    ensures AllNoBreaks(SampleLines(schema, rows, strategy))
  {
    var names := schema.ColumnNames();
    assert NoBreaks(CELL_SEPARATOR);
    Statistics.JoinUnbroken(names, CELL_SEPARATOR);
    var rules := seq(|names|, j requires 0 <= j < |names| => Rule(names[j]));
    Statistics.JoinUnbroken(rules, CELL_SEPARATOR);
    var table := [HeaderLine(names), SeparatorLine(names)];
    assert AllNoBreaks(table);
    var body := RowLines(rows, names);
    forall i | 0 <= i < |rows| ensures NoBreaks(body[i]) {
      var cells := Cells(rows[i], names);
      forall j | 0 <= j < |names| ensures NoBreaks(cells[j]) {
        CellUnbroken(rows[i], names[j]);
      }
      Statistics.JoinUnbroken(cells, CELL_SEPARATOR);
    }
    PreambleUnbroken(strategy, |rows|);
    AllNoBreaksConcat(Preamble(strategy, |rows|), table);
    AllNoBreaksConcat(Preamble(strategy, |rows|) + table, body);
  }

  /** The sample block is whole lines and an unfinished last line: "No data available"
      alone, or its lines all finished. */
  lemma SampleTextSplits(schema: DataSchema, rows: seq<DataRow>, strategy: SamplingStrategy)
    returns (lines: seq<string>, last: string)
    requires forall i | 0 <= i < |schema.columns| :: NoBreaks(schema.columns[i].name)
    requires forall i | 0 <= i < |rows| :: RowUnbroken(rows[i])
    ensures SplitsInto(SampleText(schema, rows, strategy), lines, last)
    ensures |rows| == 0 ==> lines == [] && last == "No data available"
    ensures |rows| > 0 ==> lines == SampleLines(schema, rows, strategy) && last == ""
  {
    if |rows| == 0 {
      lines, last := [], "No data available";
      assert NoBreaks(last);
      assert TerminatedLines(lines) + last == last;
    } else {
      lines, last := SampleLines(schema, rows, strategy), "";
      SampleLinesUnbroken(schema, rows, strategy);
      assert TerminatedLines(lines) + last == TerminatedLines(lines);
    }
  }

  /** The blocks of a context built from data whose column names and sampled values,
      and whose statistics, hold no line breaks: each is a prefix of its block's lines
      and an unfinished last line, so the prompt context splits back into them. */
  lemma BuiltContextLines(data: ParsedData, statistics: Option<Statistics.DataStatistics>,
                          shuffle: nat -> seq<nat>, formats: Statistics.Formats, context: AnalyticsContext)
    returns (schemaLines: seq<string>, schemaLast: string,
             statisticsLines: seq<string>, statisticsLast: string,
             sampleLines: seq<string>, sampleLast: string)
    requires Sampler.IsShuffle(shuffle)
    requires forall i | 0 <= i < |data.schema.columns| :: NoBreaks(data.schema.columns[i].name)
    requires statistics.Some? ==>
      forall c | 0 <= c < |statistics.value.columnStats| :: Statistics.ColumnUnbroken(statistics.value.columnStats[c], formats)
    requires var rows := SampledRows(data, shuffle); forall i | 0 <= i < |rows| :: RowUnbroken(rows[i])
    requires var strategy := ForRowCount(data.totalRowCount);
      && context.schemaDescription == Truncated(TerminatedLines(SchemaLines(data.schema)), SCHEMA_BUDGET)
      && context.statisticsSummary
         == Truncated(TerminatedLines(StatisticsLines(statistics, data.totalRowCount, strategy, formats)), STATISTICS_BUDGET)
      && context.dataSample
         == Truncated(SampleText(data.schema, SampledRows(data, shuffle), strategy), DATA_SAMPLE_BUDGET)
    ensures var all := SchemaLines(data.schema);
      |schemaLines| <= |all| && schemaLines == all[..|schemaLines|]
    ensures var all := StatisticsLines(statistics, data.totalRowCount, ForRowCount(data.totalRowCount), formats);
      |statisticsLines| <= |all| && statisticsLines == all[..|statisticsLines|]
    ensures Lines(context.ToPromptContext())
         == BlockPromptLines(schemaLines, schemaLast, statisticsLines, statisticsLast, sampleLines, sampleLast) + [""]
  {
    var strategy := ForRowCount(data.totalRowCount);
    SchemaLinesUnbroken(data.schema);
    var schema := SchemaLines(data.schema);
    assert SplitsInto(TerminatedLines(schema), schema, "") by {
      assert TerminatedLines(schema) + "" == TerminatedLines(schema);
    }
    schemaLines, schemaLast := TruncatedSplits(TerminatedLines(schema), schema, "", SCHEMA_BUDGET);
    StatisticsLinesUnbroken(statistics, data.totalRowCount, strategy, formats);
    var stats := StatisticsLines(statistics, data.totalRowCount, strategy, formats);
    assert SplitsInto(TerminatedLines(stats), stats, "") by {
      assert TerminatedLines(stats) + "" == TerminatedLines(stats);
    }
    statisticsLines, statisticsLast := TruncatedSplits(TerminatedLines(stats), stats, "", STATISTICS_BUDGET);
    var rows := SampledRows(data, shuffle);
    var sl, slast := SampleTextSplits(data.schema, rows, strategy);
    sampleLines, sampleLast := TruncatedSplits(SampleText(data.schema, rows, strategy), sl, slast, DATA_SAMPLE_BUDGET);
    PromptContextLines(context, schemaLines, schemaLast, statisticsLines, statisticsLast, sampleLines, sampleLast);
  }

  /** `buildFullPrompt` */
  function BuildFullPrompt(context: AnalyticsContext, question: string): string {
    "=== DATA CONTEXT ===\n" + "\n" + context.ToPromptContext() + "\n"
    + "=== USER QUESTION ===\n" + "\n" + question + "\n"
  }

  /** The full prompt is the data-context banner and a blank line, the prompt context,
      then a blank line, the question banner, a blank line and the question. With
      blocks made of whole lines and an unfinished last line, as every block the
      builder writes or cuts is, and a question on one line, it splits back into the
      banners, the lines of the prompt context's headings and blocks, and the
      question. */
  lemma FullPromptLines(context: AnalyticsContext, question: string,
                        schemaLines: seq<string>, schemaLast: string,
                        statisticsLines: seq<string>, statisticsLast: string,
                        sampleLines: seq<string>, sampleLast: string)
    requires SplitsInto(context.schemaDescription, schemaLines, schemaLast)
    requires SplitsInto(context.statisticsSummary, statisticsLines, statisticsLast)
    requires SplitsInto(context.dataSample, sampleLines, sampleLast)
    requires NoBreaks(question)
    ensures Lines(BuildFullPrompt(context, question))
         == ["=== DATA CONTEXT ===", ""]
            + BlockPromptLines(schemaLines, schemaLast, statisticsLines, statisticsLast, sampleLines, sampleLast)
            + ["", "=== USER QUESTION ===", "", question, ""]
  {
    var banner := ["=== DATA CONTEXT ===", ""];
    var body := PromptLines(context.schemaDescription, context.statisticsSummary, context.dataSample);
    var blocks := BlockPromptLines(schemaLines, schemaLast, statisticsLines, statisticsLast, sampleLines, sampleLast);
    var tail := ["", "=== USER QUESTION ===", "", question];
    FullPromptText(context, question);
    PromptBlocksSplice(schemaLines, schemaLast, statisticsLines, statisticsLast, sampleLines, sampleLast);
    TerminatedLinesConcat(banner + body, tail);
    TerminatedLinesConcat(banner, body);
    TerminatedLinesConcat(banner + blocks, tail);
    TerminatedLinesConcat(banner, blocks);
    BlockPromptLinesUnbroken(schemaLines, schemaLast, statisticsLines, statisticsLast, sampleLines, sampleLast);
    assert AllNoBreaks(banner) by { assert NoBreaks(banner[0]) && NoBreaks(banner[1]); }
    assert AllNoBreaks(tail) by { assert NoBreaks(tail[0]) && NoBreaks(tail[1]); }
    AllNoBreaksConcat(banner, blocks);
    AllNoBreaksConcat(banner + blocks, tail);
    LinesOfTerminated(banner + blocks + tail);
    ConcatAssoc(banner + blocks, tail, [""]);
    assert tail + [""] == ["", "=== USER QUESTION ===", "", question, ""];
  }

  lemma FullPromptText(context: AnalyticsContext, question: string)
    ensures BuildFullPrompt(context, question)
         == TerminatedLines(["=== DATA CONTEXT ===", ""]
            + PromptLines(context.schemaDescription, context.statisticsSummary, context.dataSample)
            + ["", "=== USER QUESTION ===", "", question])
  {
    var banner := ["=== DATA CONTEXT ===", ""];
    var body := PromptLines(context.schemaDescription, context.statisticsSummary, context.dataSample);
    var tail := ["", "=== USER QUESTION ===", "", question];
    TerminatedLinesConcat(banner + body, tail);
    TerminatedLinesConcat(banner, body);
    TerminatedPair("=== DATA CONTEXT ===", "");
    TerminatedQuad("", "=== USER QUESTION ===", "", question);
  }

  /** Two contexts with the same blocks give the same prompt for every question,
      whatever their system prompts and token estimates. */
  lemma FullPromptIgnoresSystemPrompt(a: AnalyticsContext, b: AnalyticsContext, question: string)
    requires a.schemaDescription == b.schemaDescription
    requires a.statisticsSummary == b.statisticsSummary
    requires a.dataSample == b.dataSample
    ensures BuildFullPrompt(a, question) == BuildFullPrompt(b, question)
  {
    FullPromptText(a, question);
    FullPromptText(b, question);
  }
}
