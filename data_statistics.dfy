/**
 * The statistical summary handed to the model: one record per column, in one of
 * three shapes, and `toSummaryString`, which writes it out line by line.
 *
 * Floating-point fields are not interpreted: a numeric column keeps the texts of its
 * parsed values (from which the source computes min, max, average and sum as
 * doubles), the average length is an exact rational (None standing for NaN), and
 * rendering them (`Double.toString`, `String.format("%.2f")`, `"%.1f"`) is a
 * parameter.
 */
module Statistics {
  import opened Options
  import opened Text
  import opened ParsedData

  /** `ColumnStatistics`, a closed union; every variant has a name, a type and the
      non-null and null counts. */
  datatype ColumnStatistics =
    | NumericColumnStats(name: string, columnType: ColumnType, nonNullCount: int, nullCount: int,
                         numbers: seq<string>)
    | CategoricalColumnStats(name: string, columnType: ColumnType, nonNullCount: int, nullCount: int,
                             uniqueCount: int, topValues: seq<(string, int)>)
    | TextColumnStats(name: string, columnType: ColumnType, nonNullCount: int, nullCount: int,
                      avgLength: Option<real>, minLength: int, maxLength: int)

  datatype DataStatistics = DataStatistics(totalRows: int, columnStats: seq<ColumnStatistics>)

  /** How the floating-point parts are rendered: the minimum, maximum and average
      (two decimals) of a numeric column, and an average length (one decimal). */
  datatype Formats = Formats(
    min: seq<string> -> string,
    max: seq<string> -> string,
    avg: seq<string> -> string,
    avgLength: Option<real> -> string)

  /** The maximum number of top values the summary lists. */
  const SUMMARY_TOP_VALUES: nat := 5

  /** `"${first}(${second})"` */
  function TopValueText(entry: (string, int)): string {
    entry.0 + "(" + IntToString(entry.1) + ")"
  }

  /** `topValues.take(5).joinToString { ... }` with the default separator ", ". */
  function TopValuesText(topValues: seq<(string, int)>): string {
    var shown := Take(topValues, SUMMARY_TOP_VALUES);
    Join(seq(|shown|, i requires 0 <= i < |shown| => TopValueText(shown[i])), ", ")
  }

  /** The lines after a column's header and counts: the block of its variant. */
  function VariantLines(col: ColumnStatistics, formats: Formats): seq<string> {
    match col
    case NumericColumnStats(_, _, _, _, numbers) =>
      ["    - Min: " + formats.min(numbers),
       "    - Max: " + formats.max(numbers),
       "    - Avg: " + formats.avg(numbers)]
    case CategoricalColumnStats(_, _, _, _, uniqueCount, topValues) =>
      ["    - Unique values: " + IntToString(uniqueCount)]
      + (if |topValues| > 0 then ["    - Top values: " + TopValuesText(topValues)] else [])
    case TextColumnStats(_, _, _, _, avgLength, _, _) =>
      ["    - Avg length: " + formats.avgLength(avgLength)]
  }

  /** The lines one column contributes. */
  function ColumnLines(col: ColumnStatistics, totalRows: int, formats: Formats): seq<string> {
    ["  " + col.name + " (" + DisplayName(col.columnType) + "):",
     "    - Non-null: " + IntToString(col.nonNullCount) + "/" + IntToString(totalRows)]
    + VariantLines(col, formats)
  }

  function ColumnLinesOf(totalRows: int, formats: Formats): ColumnStatistics -> seq<string> {
    col => ColumnLines(col, totalRows, formats)
  }

  /** The lines of several columns, in order. */
  function AllColumnLines(cols: seq<ColumnStatistics>, totalRows: int, formats: Formats): seq<string> {
    Concat(Map(cols, ColumnLinesOf(totalRows, formats)))
  }

  /** The lines of the summary. */
  function SummaryLines(stats: DataStatistics, formats: Formats): seq<string> {
    ["Total rows: " + IntToString(stats.totalRows),
     "Columns (" + IntToString(|stats.columnStats|) + "):"]
    + AllColumnLines(stats.columnStats, stats.totalRows, formats)
  }

  /** `toSummaryString`: every line written with `appendLine`, column after column. */
  method ToSummaryString(stats: DataStatistics, formats: Formats) returns (text: string)
    ensures text == TerminatedLines(SummaryLines(stats, formats))
  {
    var cols := stats.columnStats;
    var total := stats.totalRows;
    ghost var written: seq<string> := [];
    text := "";
    text := AppendLine(text, written, "Total rows: " + IntToString(total));
    written := written + ["Total rows: " + IntToString(total)];
    text := AppendLine(text, written, "Columns (" + IntToString(|cols|) + "):");
    written := written + ["Columns (" + IntToString(|cols|) + "):"];
    ghost var header := written;
    for c := 0 to |cols|
      invariant written == header + AllColumnLines(cols[..c], total, formats)
      invariant text == TerminatedLines(written)
    {
      text, written := WriteColumn(text, written, cols[c], total, formats);
      ColumnsSnoc(cols, c, total, formats);
      ConcatAssoc(header, AllColumnLines(cols[..c], total, formats), ColumnLines(cols[c], total, formats));
    }
    TakeAll(cols);
  }

  lemma ColumnsSnoc(cols: seq<ColumnStatistics>, c: nat, total: int, formats: Formats)
    requires c < |cols|
    ensures AllColumnLines(cols[..c + 1], total, formats)
         == AllColumnLines(cols[..c], total, formats) + ColumnLines(cols[c], total, formats)
  {
    var f := ColumnLinesOf(total, formats);
    MapSnoc(cols, c, f);
    ConcatSnoc(Map(cols[..c], f), f(cols[c]));
  }

  /** The body of the loop over the columns: the header, the counts and the block
      of the column's variant. */
  method WriteColumn(text: string, ghost written: seq<string>, col: ColumnStatistics, total: int, formats: Formats)
    returns (extended: string, ghost lines: seq<string>)
    requires text == TerminatedLines(written)
    ensures lines == written + ColumnLines(col, total, formats)
    ensures extended == TerminatedLines(lines)
  {
    extended := AppendLine(text, written, "  " + col.name + " (" + DisplayName(col.columnType) + "):");
    lines := written + ["  " + col.name + " (" + DisplayName(col.columnType) + "):"];
    extended := AppendLine(extended, lines, "    - Non-null: " + IntToString(col.nonNullCount) + "/" + IntToString(total));
    lines := lines + ["    - Non-null: " + IntToString(col.nonNullCount) + "/" + IntToString(total)];
    ghost var counted := lines;
    extended, lines := WriteVariant(extended, lines, col, formats);
    ColumnWritten(written, col, total, formats, counted, lines);
  }

  /** The lines of the column's variant. */
  method WriteVariant(text: string, ghost written: seq<string>, col: ColumnStatistics, formats: Formats)
    returns (extended: string, ghost lines: seq<string>)
    requires text == TerminatedLines(written)
    ensures lines == written + VariantLines(col, formats)
    ensures extended == TerminatedLines(lines)
  {
    lines := written;
    extended := text;
    match col {
      case NumericColumnStats(_, _, _, _, numbers) =>
        extended := AppendLine(extended, lines, "    - Min: " + formats.min(numbers));
        lines := lines + ["    - Min: " + formats.min(numbers)];
        extended := AppendLine(extended, lines, "    - Max: " + formats.max(numbers));
        lines := lines + ["    - Max: " + formats.max(numbers)];
        extended := AppendLine(extended, lines, "    - Avg: " + formats.avg(numbers));
        lines := lines + ["    - Avg: " + formats.avg(numbers)];
      case CategoricalColumnStats(_, _, _, _, uniqueCount, topValues) =>
        extended := AppendLine(extended, lines, "    - Unique values: " + IntToString(uniqueCount));
        lines := lines + ["    - Unique values: " + IntToString(uniqueCount)];
        if |topValues| > 0 {
          extended := AppendLine(extended, lines, "    - Top values: " + TopValuesText(topValues));
          lines := lines + ["    - Top values: " + TopValuesText(topValues)];
        }
      case TextColumnStats(_, _, _, _, avgLength, _, _) =>
        extended := AppendLine(extended, lines, "    - Avg length: " + formats.avgLength(avgLength));
        lines := lines + ["    - Avg length: " + formats.avgLength(avgLength)];
    }
  }

  /** `sb.appendLine(line)`: the text of the lines written so far, one line more. */
  method AppendLine(text: string, ghost written: seq<string>, line: string) returns (extended: string)
    requires text == TerminatedLines(written)
    ensures extended == text + line + "\n"
    ensures extended == TerminatedLines(written + [line])
  {
    extended := text + line + "\n";
    TerminatedLinesAppend(written, line);
  }

  lemma ColumnWritten(done: seq<string>, col: ColumnStatistics, total: int, formats: Formats,
                      counted: seq<string>, written: seq<string>)
    requires counted == done + ["  " + col.name + " (" + DisplayName(col.columnType) + "):"]
                             + ["    - Non-null: " + IntToString(col.nonNullCount) + "/" + IntToString(total)]
    requires written == counted + VariantLines(col, formats)
    ensures written == done + ColumnLines(col, total, formats)
  {
  }

  // ---------------------------------------------------------------------------
  // Properties of the layout
  // ---------------------------------------------------------------------------

  /** The number of lines a column gets: the header and the counts, then three for a
      numeric column, one or two for a categorical one (the top values only when
      there are some) and one for a text column. */
  lemma ColumnLineCount(col: ColumnStatistics, totalRows: int, formats: Formats)
    ensures var lines := ColumnLines(col, totalRows, formats);
      && |lines| == 2 + (match col
                         case NumericColumnStats(_, _, _, _, _) => 3
                         case CategoricalColumnStats(_, _, _, _, _, topValues) => if |topValues| > 0 then 2 else 1
                         case TextColumnStats(_, _, _, _, _, _, _) => 1)
      && lines[0] == "  " + col.name + " (" + DisplayName(col.columnType) + "):"
      && lines[1] == "    - Non-null: " + IntToString(col.nonNullCount) + "/" + IntToString(totalRows)
  {
  }

  /** The summary lists at most five top values, the first ones, in order. */
  lemma TopValuesShown(topValues: seq<(string, int)>)
    ensures var shown := Take(topValues, SUMMARY_TOP_VALUES);
      |shown| <= 5 && shown == topValues[..|shown|] && (|topValues| >= 5 ==> |shown| == 5)
  {
  }

  /** The summary starts with the total and the number of columns. */
  lemma SummaryHeading(stats: DataStatistics, formats: Formats)
    ensures var lines := SummaryLines(stats, formats);
      && |lines| >= 2
      && lines[0] == "Total rows: " + IntToString(stats.totalRows)
      && lines[1] == "Columns (" + IntToString(|stats.columnStats|) + "):"
  {
  }

  /** After the heading comes every column's block in order, and nothing else: the
      summary splits around the block of any column. */
  lemma SummaryLayout(stats: DataStatistics, formats: Formats, k: nat)
    requires k < |stats.columnStats|
    ensures var cols := stats.columnStats;
      SummaryLines(stats, formats)
      == SummaryLines(stats, formats)[..2]
         + AllColumnLines(cols[..k], stats.totalRows, formats)
         + ColumnLines(cols[k], stats.totalRows, formats)
         + AllColumnLines(cols[k + 1..], stats.totalRows, formats)
  {
    var cols := stats.columnStats;
    var f := ColumnLinesOf(stats.totalRows, formats);
    var blocks := Map(cols, f);
    MapSlices(cols, k, f);
    MapSlices(cols, k + 1, f);
    ConcatSplit(blocks, k);
    var heading := SummaryLines(stats, formats)[..2];
    var before := AllColumnLines(cols[..k], stats.totalRows, formats);
    var block := ColumnLines(cols[k], stats.totalRows, formats);
    var after := AllColumnLines(cols[k + 1..], stats.totalRows, formats);
    assert SummaryLines(stats, formats) == heading + (before + block + after);
    ConcatAssoc(heading, before, block);
    ConcatAssoc(heading, before + block, after);
  }

  /** No piece of a column's text carries a line break: its name, its top values
      and the rendered numbers. */
  predicate ColumnUnbroken(col: ColumnStatistics, formats: Formats) {
    && NoBreaks(col.name)
    && match col
       case NumericColumnStats(_, _, _, _, numbers) =>
         NoBreaks(formats.min(numbers)) && NoBreaks(formats.max(numbers)) && NoBreaks(formats.avg(numbers))
       case CategoricalColumnStats(_, _, _, _, _, topValues) =>
         forall i | 0 <= i < |topValues| :: NoBreaks(topValues[i].0)
       case TextColumnStats(_, _, _, _, avgLength, _, _) =>
         NoBreaks(formats.avgLength(avgLength))
  }

  lemma NoBreaksConcat(a: string, b: string)
    requires NoBreaks(a) && NoBreaks(b)
    ensures NoBreaks(a + b)
  {
    assert forall i | |a| <= i < |a + b| :: (a + b)[i] == b[i - |a|];
  }

  lemma IntTextUnbroken(n: int)
    ensures NoBreaks(IntToString(n))
  {
    if n < 0 {
      NoBreaksConcat("-", NatToString(-n));
    }
  }

  lemma {:induction false} JoinUnbroken(parts: seq<string>, sep: string)
    requires NoBreaks(sep) && forall i | 0 <= i < |parts| :: NoBreaks(parts[i])
    ensures NoBreaks(Join(parts, sep))
  {
    if |parts| > 1 {
      JoinUnbroken(parts[1..], sep);
      NoBreaksConcat(parts[0], sep);
      NoBreaksConcat(parts[0] + sep, Join(parts[1..], sep));
    }
  }

  lemma TopValuesUnbroken(topValues: seq<(string, int)>)
    requires forall i | 0 <= i < |topValues| :: NoBreaks(topValues[i].0)
    ensures NoBreaks(TopValuesText(topValues))
  {
    var shown := Take(topValues, SUMMARY_TOP_VALUES);
    var parts := seq(|shown|, i requires 0 <= i < |shown| => TopValueText(shown[i]));
    forall i | 0 <= i < |shown| ensures NoBreaks(parts[i]) {
      assert shown[i] == topValues[i];
      IntTextUnbroken(shown[i].1);
      NoBreaksConcat(shown[i].0, "(");
      NoBreaksConcat(shown[i].0 + "(", IntToString(shown[i].1));
      NoBreaksConcat(shown[i].0 + "(" + IntToString(shown[i].1), ")");
    }
    JoinUnbroken(parts, ", ");
  }

  lemma DisplayNameUnbroken(t: ColumnType)
    ensures NoBreaks(DisplayName(t))
  {
    match t
    case STRING =>
    case INTEGER =>
    case DECIMAL =>
    case BOOLEAN =>
    case TIMESTAMP =>
    case UNKNOWN =>
  }

  lemma HeaderLineUnbroken(col: ColumnStatistics)
    requires NoBreaks(col.name)
    ensures NoBreaks("  " + col.name + " (" + DisplayName(col.columnType) + "):")
  {
    NoBreaksConcat("  ", col.name);
    NoBreaksConcat("  " + col.name, " (");
    DisplayNameUnbroken(col.columnType);
    NoBreaksConcat("  " + col.name + " (", DisplayName(col.columnType));
    NoBreaksConcat("  " + col.name + " (" + DisplayName(col.columnType), "):");
  }

  lemma CountLineUnbroken(nonNull: int, totalRows: int)
    ensures NoBreaks("    - Non-null: " + IntToString(nonNull) + "/" + IntToString(totalRows))
  {
    IntTextUnbroken(nonNull);
    IntTextUnbroken(totalRows);
    NoBreaksConcat("    - Non-null: ", IntToString(nonNull));
    NoBreaksConcat("    - Non-null: " + IntToString(nonNull), "/");
    NoBreaksConcat("    - Non-null: " + IntToString(nonNull) + "/", IntToString(totalRows));
  }

  lemma VariantLinesUnbroken(col: ColumnStatistics, formats: Formats)
    requires ColumnUnbroken(col, formats)
    ensures forall j | 0 <= j < |VariantLines(col, formats)| :: NoBreaks(VariantLines(col, formats)[j])
  {
    match col
    case NumericColumnStats(_, _, _, _, numbers) =>
      NumericLinesUnbroken(numbers, formats);
    case CategoricalColumnStats(_, _, _, _, uniqueCount, topValues) =>
      CategoricalLinesUnbroken(uniqueCount, topValues);
    case TextColumnStats(_, _, _, _, avgLength, _, _) =>
      NoBreaksConcat("    - Avg length: ", formats.avgLength(avgLength));
  }

  lemma NumericLinesUnbroken(numbers: seq<string>, formats: Formats)
    requires NoBreaks(formats.min(numbers)) && NoBreaks(formats.max(numbers)) && NoBreaks(formats.avg(numbers))
    ensures NoBreaks("    - Min: " + formats.min(numbers))
    ensures NoBreaks("    - Max: " + formats.max(numbers))
    ensures NoBreaks("    - Avg: " + formats.avg(numbers))
  {
    NoBreaksConcat("    - Min: ", formats.min(numbers));
    NoBreaksConcat("    - Max: ", formats.max(numbers));
    NoBreaksConcat("    - Avg: ", formats.avg(numbers));
  }

  lemma CategoricalLinesUnbroken(uniqueCount: int, topValues: seq<(string, int)>)
    requires forall i | 0 <= i < |topValues| :: NoBreaks(topValues[i].0)
    ensures NoBreaks("    - Unique values: " + IntToString(uniqueCount))
    ensures NoBreaks("    - Top values: " + TopValuesText(topValues))
  {
    IntTextUnbroken(uniqueCount);
    NoBreaksConcat("    - Unique values: ", IntToString(uniqueCount));
    TopValuesUnbroken(topValues);
    NoBreaksConcat("    - Top values: ", TopValuesText(topValues));
  }

  lemma ColumnLinesUnbroken(col: ColumnStatistics, totalRows: int, formats: Formats)
    requires ColumnUnbroken(col, formats)
    ensures forall j | 0 <= j < |ColumnLines(col, totalRows, formats)| :: NoBreaks(ColumnLines(col, totalRows, formats)[j])
  {
    HeaderLineUnbroken(col);
    CountLineUnbroken(col.nonNullCount, totalRows);
    VariantLinesUnbroken(col, formats);
    var lines := ColumnLines(col, totalRows, formats);
    assert forall j | 2 <= j < |lines| :: lines[j] == VariantLines(col, formats)[j - 2];
  }

  lemma AllColumnLinesUnbroken(cols: seq<ColumnStatistics>, totalRows: int, formats: Formats)
    requires forall c | 0 <= c < |cols| :: ColumnUnbroken(cols[c], formats)
    ensures forall j | 0 <= j < |AllColumnLines(cols, totalRows, formats)| :: NoBreaks(AllColumnLines(cols, totalRows, formats)[j])
  {
    var blocks := Map(cols, ColumnLinesOf(totalRows, formats));
    forall b | 0 <= b < |blocks| ensures AllNoBreaks(blocks[b]) {
      ColumnLinesUnbroken(cols[b], totalRows, formats);
    }
    ConcatNoBreaks(blocks);
  }

  /** With no line breaks in the names, the top values and the rendered numbers, no
      line of the summary holds a line break. */
  lemma SummaryLinesUnbroken(stats: DataStatistics, formats: Formats)
    requires forall c | 0 <= c < |stats.columnStats| :: ColumnUnbroken(stats.columnStats[c], formats)
    ensures forall j | 0 <= j < |SummaryLines(stats, formats)| :: NoBreaks(SummaryLines(stats, formats)[j])
  {
    var heading := ["Total rows: " + IntToString(stats.totalRows), "Columns (" + IntToString(|stats.columnStats|) + "):"];
    IntTextUnbroken(stats.totalRows);
    IntTextUnbroken(|stats.columnStats|);
    NoBreaksConcat("Total rows: ", IntToString(stats.totalRows));
    NoBreaksConcat("Columns (", IntToString(|stats.columnStats|));
    NoBreaksConcat("Columns (" + IntToString(|stats.columnStats|), "):");
    AllColumnLinesUnbroken(stats.columnStats, stats.totalRows, formats);
    var all := AllColumnLines(stats.columnStats, stats.totalRows, formats);
    assert forall j | 2 <= j < |heading + all| :: (heading + all)[j] == all[j - 2];
  }

  /** Under the same condition the summary text splits back into exactly its lines,
      followed by the empty rest after the final newline. */
  lemma SummaryRoundTrip(stats: DataStatistics, formats: Formats, text: string)
    requires text == TerminatedLines(SummaryLines(stats, formats))
    requires forall c | 0 <= c < |stats.columnStats| :: ColumnUnbroken(stats.columnStats[c], formats)
    ensures Lines(text) == SummaryLines(stats, formats) + [""]
  {
    SummaryLinesUnbroken(stats, formats);
    LinesOfTerminated(SummaryLines(stats, formats));
  }
}
