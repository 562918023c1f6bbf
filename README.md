# OllamaTest analytics core in Dafny

OllamaTest is an Android chat client for a local language model with an analytics screen:
the user loads a CSV, JSON or log file and asks questions about it. This project models
the part that turns the file into the text of the prompt:

- the file type lookups of `FileType` (by extension, by file name, by MIME type);
- the three parsers (`CsvParser`, `JsonParser`, `LogParser`). Each turns the content into
  a `ParsedData` table and emits a flow of `ParseResult` events: progress reports and then
  exactly one `Success` or `Error`;
- column type inference (`ColumnType.infer`, `isTimestamp`) and the numeric syntax it
  relies on (`toLongOrNull`, `toDoubleOrNull`);
- `StatisticsCalculator`, which gives per-column numeric, categorical or text statistics,
  and `DataStatistics.toSummaryString`;
- `DataSampler`: the sampling strategy by row count and the stratified sample (head, a
  shuffled middle, tail);
- `TokenBudgetManager`: character limits, truncation, the remaining budget and the
  row-count estimate, with Kotlin `Int` wrap-around and `Double.toInt` saturation written
  out;
- `AnalyticsContext.toPromptContext` and `ContextBuilder`: building the context from the
  data and the statistics, and the full prompt.

Modules follow the Kotlin files:

- `data_file.dfy`: `DataFile`
- `parsed_data.dfy`: `ParsedData`
- `parse_events.dfy`: `ParseEvents`, the `ParseResult` events of `FileParser`
- `csv_parser.dfy`, `json_parser.dfy`, `log_parser.dfy`: `CsvParser`, `JsonParser`, `LogParser`
- `statistics_calculator.dfy`: `StatisticsCalculator`
- `data_statistics.dfy`: `Statistics`
- `data_sampler.dfy`: `Sampler`
- `token_budget_manager.dfy`: `TokenBudget`
- `analytics_context.dfy`: `Analytics`
- `context_builder.dfy`: `ContextBuilder`

Four helper modules hold Kotlin library semantics:

- `Text`: `trim`, `lines()`, `appendLine`, `take`, `substringAfterLast` and ignore-case
  equality;
- `NumberText`: which texts `toLongOrNull` and `toDoubleOrNull` accept;
- `Votes`: `groupingBy { it }.eachCount().maxByOrNull` and `distinct`;
- `Options`: Kotlin `null` and thrown exceptions.

Code that works step by step is written as methods with loops, each proved equal to a
specification function:

- the CSV line tokenizer;
- the parsers' row loops with their progress reports;
- JSON flattening and schema collection;
- the key-value log scanner;
- the `StringBuilder` texts of the summary, the schema, the statistics block and the
  sample block;
- the stratified sampler.

The rest is functions. Properties are proved about those functions as lemmas.

Library calls the code cannot see are parameters:

- the kotlinx JSON reader is `parse: string -> Option<Json>`, where `None` stands for
  the exception;
- the Standard and Apache regular expressions are matcher functions returning their
  groups;
- `shuffled(Random(42))` is a permutation chosen by the size of the list;
- the text of a `Double` (`min`, `max`, `%.2f`, `%.1f`) is a `Formats` parameter;
- the system prompt of the analytics template is a parameter.

The Simple and Key-Value patterns are written out as matchers in Dafny.

## Model

| member | source | states |
|---|---|---|
| `DataFile.Find` | app/src/main/java/ru/macdroid/ollama/domain/model/analytics/DataFile.kt:28 | `entries.find`: `null` exactly when no type passes the test; otherwise the first type that passes |
| `DataFile.FromExtension` | app/src/main/java/ru/macdroid/ollama/domain/model/analytics/DataFile.kt:27-29 | `fromExtension` as the first type in declaration order whose extension equals the text ignoring case; its properties are `FromExtensionSpec` and `NoExtension` |
| `DataFile.FromExtensionSpec` | app/src/main/java/ru/macdroid/ollama/domain/model/analytics/DataFile.kt:27-29 | `fromExtension` returns a type exactly when the text equals that type's extension, ignoring case (both directions) |
| `DataFile.ExtensionsDisjoint` | app/src/main/java/ru/macdroid/ollama/domain/model/analytics/DataFile.kt:21-24 | no text is the extension of two different types, ignoring case |
| `DataFile.CharFold` | app/src/main/java/ru/macdroid/ollama/domain/model/analytics/DataFile.kt:28 | characters that are equal ignoring case have the same lower case of their upper case |
| `DataFile.NoExtension` | app/src/main/java/ru/macdroid/ollama/domain/model/analytics/DataFile.kt:27-29 | the empty extension has no type |
| `DataFile.FromFileName` | app/src/main/java/ru/macdroid/ollama/domain/model/analytics/DataFile.kt:31-34 | `fromFileName` as `fromExtension` of the text after the last dot, or of "" without a dot; its properties are `FromFileNameSpec` and `FromFileNameOfExtension` |
| `DataFile.FromFileNameSpec` | app/src/main/java/ru/macdroid/ollama/domain/model/analytics/DataFile.kt:31-34 | a name without a dot has no type; a name with a type has a last dot followed by that type's extension, up to case |
| `DataFile.AfterLastDot` | app/src/main/java/ru/macdroid/ollama/domain/model/analytics/DataFile.kt:32 | `substringAfterLast('.')` of `stem.ext` is `ext` when `ext` has no dot |
| `DataFile.FromFileNameOfExtension` | app/src/main/java/ru/macdroid/ollama/domain/model/analytics/DataFile.kt:31-34 | any name ending in `.` and a type's extension, in any case, has that type |
| `DataFile.MimeTypesDisjoint` | app/src/main/java/ru/macdroid/ollama/domain/model/analytics/DataFile.kt:21-24 | no MIME type belongs to the lists of two types |
| `DataFile.FromMimeType` | app/src/main/java/ru/macdroid/ollama/domain/model/analytics/DataFile.kt:36-38 | `fromMimeType` as the first type whose MIME list holds the text ignoring case; its properties are `FromMimeTypeSpec` and `PlainTextIsLog` |
| `DataFile.FromMimeTypeSpec` | app/src/main/java/ru/macdroid/ollama/domain/model/analytics/DataFile.kt:36-38 | `fromMimeType` returns a type exactly when the MIME type is in that type's list, ignoring case |
| `DataFile.PlainTextIsLog` | app/src/main/java/ru/macdroid/ollama/domain/model/analytics/DataFile.kt:24 | `text/plain` is a log |
| `ParsedData.DataSchema.ColumnCount` | app/src/main/java/ru/macdroid/ollama/domain/model/analytics/ParsedData.kt:24 | the column count is the number of columns |
| `ParsedData.DataSchema.ColumnNames` | app/src/main/java/ru/macdroid/ollama/domain/model/analytics/ParsedData.kt:26 | one name per column, in schema order |
| `ParsedData.DataRow.Get` | app/src/main/java/ru/macdroid/ollama/domain/model/analytics/ParsedData.kt:105 | `null` for a column the row lacks, the stored value otherwise |
| `ParsedData.DataRow.ToValueList` | app/src/main/java/ru/macdroid/ollama/domain/model/analytics/ParsedData.kt:107-109 | one entry per requested column, in order, each the row's value for it |
| `ParsedData.ParsedData.LoadedRowCount` | app/src/main/java/ru/macdroid/ollama/domain/model/analytics/ParsedData.kt:15 | the loaded row count is the number of rows held |
| `ParsedData.BlankTrim` | app/src/main/java/ru/macdroid/ollama/domain/model/analytics/ParsedData.kt:58-60 | the trimmed value is blank exactly when the value is |
| `ParsedData.Infer` | app/src/main/java/ru/macdroid/ollama/domain/model/analytics/ParsedData.kt:57-84 | `ColumnType.infer`: the tests in the source order on the trimmed value; the `Infer*` lemmas state each outcome as an if-and-only-if |
| `ParsedData.IsTimestamp` | app/src/main/java/ru/macdroid/ollama/domain/model/analytics/ParsedData.kt:86-95 | `isTimestamp` as a whole-text match of one of the four digit patterns; `InferTimestamp` and `TimestampIsNotEarlierType` state its role |
| `ParsedData.InferUnknownIffBlank` | app/src/main/java/ru/macdroid/ollama/domain/model/analytics/ParsedData.kt:57-58 | UNKNOWN exactly for a missing, empty or whitespace-only value |
| `ParsedData.InferIgnoresSurroundingWhitespace` | app/src/main/java/ru/macdroid/ollama/domain/model/analytics/ParsedData.kt:60 | inference depends only on the trimmed value |
| `ParsedData.InferBoolean` | app/src/main/java/ru/macdroid/ollama/domain/model/analytics/ParsedData.kt:62-66 | BOOLEAN exactly when the trimmed value is `true` or `false`, ignoring case |
| `ParsedData.InferInteger` | app/src/main/java/ru/macdroid/ollama/domain/model/analytics/ParsedData.kt:68-71 | INTEGER exactly when the trimmed value passes `toLongOrNull` |
| `ParsedData.InferDecimal` | app/src/main/java/ru/macdroid/ollama/domain/model/analytics/ParsedData.kt:73-76 | DECIMAL exactly when the trimmed value passes `toDoubleOrNull` and not `toLongOrNull` |
| `ParsedData.InferTimestamp` | app/src/main/java/ru/macdroid/ollama/domain/model/analytics/ParsedData.kt:78-95 | TIMESTAMP exactly when the trimmed value matches one of the four date patterns in full |
| `ParsedData.InferString` | app/src/main/java/ru/macdroid/ollama/domain/model/analytics/ParsedData.kt:83 | STRING exactly when no earlier test accepts the trimmed value |
| `ParsedData.CaseVariants` | app/src/main/java/ru/macdroid/ollama/domain/model/analytics/ParsedData.kt:63-64 | the only characters equal to `t`, `f` or `e` ignoring case are the letter and its upper case |
| `ParsedData.BoolWordEnds` | app/src/main/java/ru/macdroid/ollama/domain/model/analytics/ParsedData.kt:63-64 | a boolean word starts with `t`/`T`/`f`/`F` and ends with `e`/`E` |
| `ParsedData.BoolWordIsNotNumeric` | app/src/main/java/ru/macdroid/ollama/domain/model/analytics/ParsedData.kt:62-76 | a boolean word passes neither number test, so the boolean check hides nothing |
| `ParsedData.LetterStartIsNotNumber` | app/src/main/java/ru/macdroid/ollama/domain/model/analytics/ParsedData.kt:68-76 | a text starting with `t`/`T`/`f`/`F` is neither a Long nor a number |
| `ParsedData.TimestampIsNotEarlierType` | app/src/main/java/ru/macdroid/ollama/domain/model/analytics/ParsedData.kt:62-95 | a timestamp is neither a boolean word nor a number, so each of the four patterns is reachable |
| `ParsedData.InferDigitIsInteger` | app/src/main/java/ru/macdroid/ollama/domain/model/analytics/ParsedData.kt:62-71 | `0` and `1` are INTEGER, not BOOLEAN |
| `ParsedData.InferDateIsTimestamp` | app/src/main/java/ru/macdroid/ollama/domain/model/analytics/ParsedData.kt:89 | `2024-01-15` is a TIMESTAMP |
| `NumberText.DigitRun` | app/src/main/java/ru/macdroid/ollama/domain/model/analytics/ParsedData.kt:69 | the longest run of leading ASCII digits |
| `NumberText.HexRun` | app/src/main/java/ru/macdroid/ollama/domain/model/analytics/ParsedData.kt:74 | the longest run of leading hexadecimal digits |
| `NumberText.LongTextIsDoubleText` | app/src/main/java/ru/macdroid/ollama/domain/model/analytics/ParsedData.kt:68-76 | every text `toLongOrNull` accepts is accepted by `toDoubleOrNull` too, so INTEGER comes before DECIMAL |
| `NumberText.DateLikeIsNotNumeric` | app/src/main/java/ru/macdroid/ollama/domain/model/analytics/ParsedData.kt:68-80 | digits followed by `-` or `/` and ending in a digit are neither Long nor Double, so dates reach the timestamp test |
| `NumberText.DateLikeIsNotLong` | app/src/main/java/ru/macdroid/ollama/domain/model/analytics/ParsedData.kt:69 | a digit-led text with a `-` or `/` inside is not a Long |
| `NumberText.DateLikeIsNotNumber` | app/src/main/java/ru/macdroid/ollama/domain/model/analytics/ParsedData.kt:74 | such a text does not fit the decimal or hexadecimal number grammar |
| `NumberText.DigitEndsIsNotDouble` | app/src/main/java/ru/macdroid/ollama/domain/model/analytics/ParsedData.kt:74 | a text that starts and ends with a digit is a Double only when it is a plain number |
| `ParseEvents.RowProgress` | app/src/main/java/ru/macdroid/ollama/data/local/analytics/parser/CsvParser.kt:70-72 | the reports of a row loop are all `Progress` events |
| `ParseEvents.RowProgressShape` | app/src/main/java/ru/macdroid/ollama/data/local/analytics/parser/CsvParser.kt:61-73 | after `n` rows there is exactly one report per full hundred rows, the k-th for 100·k rows with the total and no message |
| `ParseEvents.ThenTerminal` | app/src/main/java/ru/macdroid/ollama/data/local/analytics/parser/FileParser.kt:31-55 | reports followed by one `Success` or `Error` form a well-formed flow |
| `ParseEvents.ReportThen` | app/src/main/java/ru/macdroid/ollama/data/local/analytics/parser/FileParser.kt:35-39 | a report in front of a well-formed flow keeps it well-formed |
| `CsvParser.DetectDelimiter` | app/src/main/java/ru/macdroid/ollama/data/local/analytics/parser/CsvParser.kt:97-105 | the delimiter is one of comma, semicolon, tab and vertical bar; the most frequent in the header, the earliest on a tie; `,` when none occurs |
| `CsvParser.MapTrim` | app/src/main/java/ru/macdroid/ollama/data/local/analytics/parser/CsvParser.kt:130 | each field trimmed |
| `CsvParser.SplitFields` | app/src/main/java/ru/macdroid/ollama/data/local/analytics/parser/CsvParser.kt:107-142 | the fields `parseLine` gives, each trimmed; `ParseLine` computes it, and `FieldCount`, `QuotedRoundTrip` and `UnquotedLine` state what it gives |
| `CsvParser.ParseLine` | app/src/main/java/ru/macdroid/ollama/data/local/analytics/parser/CsvParser.kt:107-142 | the character loop with the quote state computes the field split of the line |
| `CsvParser.FieldCount` | app/src/main/java/ru/macdroid/ollama/data/local/analytics/parser/CsvParser.kt:107-142 | a line has one field more than it has delimiters outside quotes; so a header always has a field and "Could not parse header row" cannot be emitted |
| `CsvParser.ScanLength` | app/src/main/java/ru/macdroid/ollama/data/local/analytics/parser/CsvParser.kt:107-142 | from any state, the scan adds one field per delimiter outside quotes, plus the last |
| `CsvParser.QuotedRoundTrip` | app/src/main/java/ru/macdroid/ollama/data/local/analytics/parser/CsvParser.kt:117-128 | fields written in quotes, inner quotes doubled, read back as the trimmed fields |
| `CsvParser.ScanField` | app/src/main/java/ru/macdroid/ollama/data/local/analytics/parser/CsvParser.kt:117-128 | one quoted field, up to a delimiter or the end, becomes the current field |
| `CsvParser.RoundTripFrom` | app/src/main/java/ru/macdroid/ollama/data/local/analytics/parser/CsvParser.kt:107-142 | the encoded row scans to its fields, appended to what was already collected |
| `CsvParser.UnquotedLine` | app/src/main/java/ru/macdroid/ollama/data/local/analytics/parser/CsvParser.kt:107-142 | a line without quotes is split at every delimiter and each part trimmed |
| `CsvParser.ScanUnquoted` | app/src/main/java/ru/macdroid/ollama/data/local/analytics/parser/CsvParser.kt:129-135 | without quotes the scan is plain splitting at the delimiter |
| `CsvParser.LastIndex` | app/src/main/java/ru/macdroid/ollama/data/local/analytics/parser/CsvParser.kt:64-66 | the last position of a header name |
| `CsvParser.RowOfShape` | app/src/main/java/ru/macdroid/ollama/data/local/analytics/parser/CsvParser.kt:63-67 | a row has exactly the header names as keys; a repeated name holds the field at its last position; a missing field is `null` |
| `CsvParser.RowOfDistinct` | app/src/main/java/ru/macdroid/ollama/data/local/analytics/parser/CsvParser.kt:63-67 | with distinct headers the i-th header holds the i-th field |
| `CsvParser.PresentValues` | app/src/main/java/ru/macdroid/ollama/data/local/analytics/parser/CsvParser.kt:146 | the sampled values are present and non-blank; none exactly when every sample row lacks the column or has it blank |
| `CsvParser.InferAll` | app/src/main/java/ru/macdroid/ollama/data/local/analytics/parser/CsvParser.kt:147 | one inferred type per value, in order |
| `CsvParser.ColumnFor` | app/src/main/java/ru/macdroid/ollama/data/local/analytics/parser/CsvParser.kt:145-163 | the column is the most frequent inferred type of the sample values (STRING without values) and nullable exactly when a sample row lacks the value or has it blank |
| `CsvParser.InferColumnTypes` | app/src/main/java/ru/macdroid/ollama/data/local/analytics/parser/CsvParser.kt:144-164 | one column per header, in header order |
| `CsvParser.ColumnNeverUnknown` | app/src/main/java/ru/macdroid/ollama/data/local/analytics/parser/CsvParser.kt:146-154 | a CSV column is never typed UNKNOWN, since only non-blank values vote |
| `CsvParser.Parse` | app/src/main/java/ru/macdroid/ollama/data/local/analytics/parser/CsvParser.kt:26-91 | the parse method emits exactly the events of the specification function |
| `CsvParser.Load` | app/src/main/java/ru/macdroid/ollama/data/local/analytics/parser/CsvParser.kt:53-86 | the part after the header emits exactly the load events |
| `CsvParser.LoadRows` | app/src/main/java/ru/macdroid/ollama/data/local/analytics/parser/CsvParser.kt:61-73 | after `n` data lines, row i is the header map of line i, with one report per hundred rows |
| `CsvParser.DelimiterIsNotQuote` | app/src/main/java/ru/macdroid/ollama/data/local/analytics/parser/CsvParser.kt:22 | the delimiter is never the quote character |
| `CsvParser.LoadWellFormed` | app/src/main/java/ru/macdroid/ollama/data/local/analytics/parser/CsvParser.kt:53-90 | the load emits reports and then one terminal event |
| `CsvParser.CsvEvents` | app/src/main/java/ru/macdroid/ollama/data/local/analytics/parser/CsvParser.kt:26-91 | the events `parse` emits; `CsvWellFormed`, `CsvErrors`, `CsvEventsOfContent` and `CsvSuccess` state their shape and outcomes |
| `CsvParser.CsvWellFormed` | app/src/main/java/ru/macdroid/ollama/data/local/analytics/parser/CsvParser.kt:26-91 | every parse is reports followed by exactly one `Success` or `Error` |
| `CsvParser.CsvEventsOfContent` | app/src/main/java/ru/macdroid/ollama/data/local/analytics/parser/CsvParser.kt:33-61 | non-blank content has a non-blank first line; its events are the two reports and then the load's |
| `CsvParser.CsvLastEvent` | app/src/main/java/ru/macdroid/ollama/data/local/analytics/parser/CsvParser.kt:39-90 | the final event of a non-blank parse is the load's final event |
| `CsvParser.CsvErrors` | app/src/main/java/ru/macdroid/ollama/data/local/analytics/parser/CsvParser.kt:26-91 | the parse ends in an error exactly for blank content ("File is empty") or a negative row limit (the failing `take`'s message); "No data lines found" and "Could not parse header row" cannot be emitted |
| `CsvParser.LoadSuccess` | app/src/main/java/ru/macdroid/ollama/data/local/analytics/parser/CsvParser.kt:56-86 | a non-negative limit gives one report per hundred loaded rows and ends with the data of `min(maxRows, total)` rows |
| `CsvParser.CsvDataShape` | app/src/main/java/ru/macdroid/ollama/data/local/analytics/parser/CsvParser.kt:75-84 | the total counts the data lines, the loaded rows are the first lines' maps, `isSampled` holds exactly when lines were left out, and the schema lists the headers in order |
| `CsvParser.CsvSuccess` | app/src/main/java/ru/macdroid/ollama/data/local/analytics/parser/CsvParser.kt:26-95 | for non-blank content and a non-negative limit: two reports, one per hundred rows, then success; the total is what `countRows` returns |
| `CsvParser.CountRows` | app/src/main/java/ru/macdroid/ollama/data/local/analytics/parser/CsvParser.kt:93-95 | `countRows`: the non-blank lines less the header, so -1 for blank content as in the source; `CsvErrors` makes `parse` report an error for blank content, so that value never reaches a `Success`, and `CsvSuccess` ties it to the parsed total |
| `JsonParser.Flatten` | app/src/main/java/ru/macdroid/ollama/data/local/analytics/parser/JsonParser.kt:159-183 | `flattenObject` on the entries in order; `FlattenKeys`, `FlattenValues`, `FlattenNeverNull` and `FlattenUnderPrefix` state its keys and values |
| `JsonParser.FlattenKeys` | app/src/main/java/ru/macdroid/ollama/data/local/analytics/parser/JsonParser.kt:159-183 | the flattened keys are exactly the dotted paths to the leaves |
| `JsonParser.FlattenNeverNull` | app/src/main/java/ru/macdroid/ollama/data/local/analytics/parser/JsonParser.kt:173-178 | every flattened value is present: `null` is a `JsonPrimitive`, recorded as `"null"` |
| `JsonParser.FlattenUnderPrefix` | app/src/main/java/ru/macdroid/ollama/data/local/analytics/parser/JsonParser.kt:163 | under a non-empty prefix every key starts with the prefix and a dot |
| `JsonParser.FlattenObject` | app/src/main/java/ru/macdroid/ollama/data/local/analytics/parser/JsonParser.kt:159-183 | the entry loop with its recursion into nested objects computes the flattening function |
| `JsonParser.LeafValueText` | app/src/main/java/ru/macdroid/ollama/data/local/analytics/parser/JsonParser.kt:169-175 | the value recorded for an array, `null` or a non-string literal is its `toString()`; for a string it is the content without the quotes |
| `JsonParser.FlattenValues` | app/src/main/java/ru/macdroid/ollama/data/local/analytics/parser/JsonParser.kt:159-183 | every leaf path is a flattened key, and each key holds the value of the last non-object element on that path (later entries override earlier ones) |
| `JsonParser.FlattenNestedExample` | app/src/main/java/ru/macdroid/ollama/data/local/analytics/parser/JsonParser.kt:163-168 | `{"user": {"name", "email"}, "action"}` flattens to `user.name`, `user.email`, `action` |
| `JsonParser.FlattenArrayExample` | app/src/main/java/ru/macdroid/ollama/data/local/analytics/parser/JsonParser.kt:169-172 | an array is stored as its JSON text |
| `JsonParser.InferFromValue` | app/src/main/java/ru/macdroid/ollama/data/local/analytics/parser/JsonParser.kt:185-204 | `inferTypeFromValue`; its properties for every reader are `InferFromValueSpec` and `InferFromLiteral` |
| `JsonParser.InferFromValueSpec` | app/src/main/java/ru/macdroid/ollama/data/local/analytics/parser/JsonParser.kt:185-204 | for every reader: `null` is UNKNOWN; a value that is not blank is never UNKNOWN; a value read as an array or an object is STRING; a value read as `null` is typed by `infer`, and so is one the reader rejects |
| `JsonParser.InferFromLiteral` | app/src/main/java/ru/macdroid/ollama/data/local/analytics/parser/JsonParser.kt:191-197 | a value read back as a literal is BOOLEAN, INTEGER or DECIMAL by the literal, in that order, and is otherwise typed by `infer` |
| `JsonParser.NullTextIsNotPrimitive` | app/src/main/java/ru/macdroid/ollama/data/local/analytics/parser/JsonParser.kt:193-195 | the text `null` is neither a boolean, a Long nor a Double |
| `JsonParser.ObjectsOf` | app/src/main/java/ru/macdroid/ollama/data/local/analytics/parser/JsonParser.kt:107 | `filterIsInstance<JsonObject>`: the objects among the elements, all of them when every element is one |
| `JsonParser.ObjectLines` | app/src/main/java/ru/macdroid/ollama/data/local/analytics/parser/JsonParser.kt:114-122 | each object read in line mode is what the reader gives for one of the lines |
| `JsonParser.ParseJsonContent` | app/src/main/java/ru/macdroid/ollama/data/local/analytics/parser/JsonParser.kt:100-123 | `parseJsonContent`: array mode when the trimmed text starts with `[`, line mode otherwise; `ArrayOfObjects`, `ArrayModeFailure` and `LineModeObjects` state both modes |
| `JsonParser.CountRows` | app/src/main/java/ru/macdroid/ollama/data/local/analytics/parser/JsonParser.kt:92-98 | `countRows` as the number of objects read; `JsonSuccess` ties it to the parsed total |
| `JsonParser.ArrayOfObjects` | app/src/main/java/ru/macdroid/ollama/data/local/analytics/parser/JsonParser.kt:104-107 | an array of objects gives exactly its elements |
| `JsonParser.ArrayModeFailure` | app/src/main/java/ru/macdroid/ollama/data/local/analytics/parser/JsonParser.kt:104-110 | in array mode, text the reader rejects or reads as a non-array gives no objects |
| `JsonParser.LineModeObjects` | app/src/main/java/ru/macdroid/ollama/data/local/analytics/parser/JsonParser.kt:113-122 | in line mode, every object comes from one non-blank line of the trimmed content |
| `JsonParser.EmptyArrayHasNoObjects` | app/src/main/java/ru/macdroid/ollama/data/local/analytics/parser/JsonParser.kt:104-107 | `[]` holds no objects |
| `JsonParser.ColumnsFor` | app/src/main/java/ru/macdroid/ollama/data/local/analytics/parser/JsonParser.kt:143-156 | one column per key, in the given order |
| `JsonParser.KeyUnionMembers` | app/src/main/java/ru/macdroid/ollama/data/local/analytics/parser/JsonParser.kt:131-134 | the collected keys are those of some flattened sample object |
| `JsonParser.KeyTypesOccur` | app/src/main/java/ru/macdroid/ollama/data/local/analytics/parser/JsonParser.kt:135-136 | a key has recorded types exactly when it occurs in the sample |
| `JsonParser.KeyNullableOccur` | app/src/main/java/ru/macdroid/ollama/data/local/analytics/parser/JsonParser.kt:137-139 | a key is nullable exactly when some sampled value for it is `null` |
| `JsonParser.JsonNeverNullable` | app/src/main/java/ru/macdroid/ollama/data/local/analytics/parser/JsonParser.kt:137-139 | no JSON column is ever nullable |
| `JsonParser.SchemaOf` | app/src/main/java/ru/macdroid/ollama/data/local/analytics/parser/JsonParser.kt:125-157 | `buildSchemaFromSample` as a function; `SchemaShape` and `JsonNeverNullable` state its columns, and `BuildSchema` computes it |
| `JsonParser.SchemaShape` | app/src/main/java/ru/macdroid/ollama/data/local/analytics/parser/JsonParser.kt:143-156 | the columns are the sample's keys in sorted order, each typed by the most frequent of its recorded types |
| `JsonParser.BuildSchema` | app/src/main/java/ru/macdroid/ollama/data/local/analytics/parser/JsonParser.kt:125-157 | the loops over the objects and their entries compute the schema function |
| `JsonParser.RecordObject` | app/src/main/java/ru/macdroid/ollama/data/local/analytics/parser/JsonParser.kt:132-140 | recording one object adds its keys, appends one inferred type per entry and marks `null` values |
| `JsonParser.RecordedColumn` | app/src/main/java/ru/macdroid/ollama/data/local/analytics/parser/JsonParser.kt:143-156 | a recorded key's column has the majority of its types (STRING when there are none) and its recorded nullability |
| `JsonParser.ColumnsOfRecord` | app/src/main/java/ru/macdroid/ollama/data/local/analytics/parser/JsonParser.kt:143-156 | the closing `map` over the sorted keys gives the schema function |
| `JsonParser.Parse` | app/src/main/java/ru/macdroid/ollama/data/local/analytics/parser/JsonParser.kt:37-90 | the parse method emits exactly the events of the specification function |
| `JsonParser.Load` | app/src/main/java/ru/macdroid/ollama/data/local/analytics/parser/JsonParser.kt:64-85 | the part after the schema emits exactly the load events |
| `JsonParser.LoadRows` | app/src/main/java/ru/macdroid/ollama/data/local/analytics/parser/JsonParser.kt:67-76 | after `n` objects, row i is object i flattened, with one report per hundred rows |
| `JsonParser.LoadWellFormed` | app/src/main/java/ru/macdroid/ollama/data/local/analytics/parser/JsonParser.kt:64-89 | the load emits reports and then one terminal event |
| `JsonParser.JsonEvents` | app/src/main/java/ru/macdroid/ollama/data/local/analytics/parser/JsonParser.kt:37-90 | the events `parse` emits; `JsonWellFormed`, `JsonErrors`, `JsonLastEvent` and `JsonSuccess` state their shape and outcomes |
| `JsonParser.JsonWellFormed` | app/src/main/java/ru/macdroid/ollama/data/local/analytics/parser/JsonParser.kt:37-90 | every parse is reports followed by exactly one `Success` or `Error` |
| `JsonParser.JsonErrors` | app/src/main/java/ru/macdroid/ollama/data/local/analytics/parser/JsonParser.kt:37-90 | the parse fails exactly for blank content, content without objects (after one report) or a negative row limit, each with its own message |
| `JsonParser.JsonLastEvent` | app/src/main/java/ru/macdroid/ollama/data/local/analytics/parser/JsonParser.kt:44-85 | with objects to load, the events are three reports then the load's, and the last event is the load's |
| `JsonParser.LoadSuccess` | app/src/main/java/ru/macdroid/ollama/data/local/analytics/parser/JsonParser.kt:66-85 | a non-negative limit gives one report per hundred rows and ends with the data of `min(maxRows, total)` objects |
| `JsonParser.JsonDataShape` | app/src/main/java/ru/macdroid/ollama/data/local/analytics/parser/JsonParser.kt:54-83 | the total counts the objects; the rows are the first objects flattened; `isSampled` holds exactly when objects were left out; the columns are the sorted keys of the first ten objects, none nullable |
| `JsonParser.JsonSuccess` | app/src/main/java/ru/macdroid/ollama/data/local/analytics/parser/JsonParser.kt:37-98 | for non-blank content with objects and a non-negative limit: three reports, one per hundred rows, then success; the total is what `countRows` returns |
| `LogParser.RunEnd` | app/src/main/java/ru/macdroid/ollama/data/local/analytics/parser/LogParser.kt:35-37 | a greedy run of matching characters ends at the first one that does not match |
| `LogParser.KvAt` | app/src/main/java/ru/macdroid/ollama/data/local/analytics/parser/LogParser.kt:35-37 | a key-value match at a position ends after it |
| `LogParser.KeyValueFields` | app/src/main/java/ru/macdroid/ollama/data/local/analytics/parser/LogParser.kt:174-189 | `parseKeyValueLog` as a function; `ParseKeyValue` computes it, and `KvMapValues`, `KvMapLastWins`, `KvQuoted` and `KvBare` state its values |
| `LogParser.ParseKeyValue` | app/src/main/java/ru/macdroid/ollama/data/local/analytics/parser/LogParser.kt:174-189 | the loop over the matches computes the key-value fields, or `{line: text}` without a match |
| `LogParser.KvMapValues` | app/src/main/java/ru/macdroid/ollama/data/local/analytics/parser/LogParser.kt:178-182 | every stored key-value is present |
| `LogParser.KvMapLastWins` | app/src/main/java/ru/macdroid/ollama/data/local/analytics/parser/LogParser.kt:178-182 | the map has exactly the matched keys, each with the value of its last match |
| `LogParser.KvQuoted` | app/src/main/java/ru/macdroid/ollama/data/local/analytics/parser/LogParser.kt:35-37 | `key="value"` matches with the quoted text as the value |
| `LogParser.KvAtBare` | app/src/main/java/ru/macdroid/ollama/data/local/analytics/parser/LogParser.kt:35-37 | the unquoted branch: the value runs to the next whitespace |
| `LogParser.KvBare` | app/src/main/java/ru/macdroid/ollama/data/local/analytics/parser/LogParser.kt:35-37 | `key=value` followed by whitespace or the end matches with that value |
| `LogParser.CountWhere` | app/src/main/java/ru/macdroid/ollama/data/local/analytics/parser/LogParser.kt:120-123 | a count of matching lines is at most the number of lines |
| `LogParser.FirstMax` | app/src/main/java/ru/macdroid/ollama/data/local/analytics/parser/LogParser.kt:126 | `maxByOrNull` picks the first position with the greatest count |
| `LogParser.DetectFormat` | app/src/main/java/ru/macdroid/ollama/data/local/analytics/parser/LogParser.kt:118-128 | `detectFormat`; `DetectFormatSpec` states RAW exactly when no count exceeds a third, otherwise the first maximum |
| `LogParser.DetectFormatSpec` | app/src/main/java/ru/macdroid/ollama/data/local/analytics/parser/LogParser.kt:118-128 | RAW exactly when no format matches more than a third of the sample; otherwise the first format with the most matches |
| `LogParser.ParseLine` | app/src/main/java/ru/macdroid/ollama/data/local/analytics/parser/LogParser.kt:130-138 | `parseLine`, dispatching on the format; `ParseAnyLine` and `ParseLineNonEmpty` state it |
| `LogParser.ParseAnyLine` | app/src/main/java/ru/macdroid/ollama/data/local/analytics/parser/LogParser.kt:130-138 | the `when` over the format computes the per-format line function |
| `LogParser.ParseLineNonEmpty` | app/src/main/java/ru/macdroid/ollama/data/local/analytics/parser/LogParser.kt:130-189 | every line gives a non-empty map without `null` values, whatever the format |
| `LogParser.StandardFields` | app/src/main/java/ru/macdroid/ollama/data/local/analytics/parser/LogParser.kt:140-148 | `parseStandardLog`; `StandardShape` states its four fields |
| `LogParser.StandardShape` | app/src/main/java/ru/macdroid/ollama/data/local/analytics/parser/LogParser.kt:140-148 | a Standard line has the four fields, with the level upper-cased |
| `LogParser.PresentOnlyKey` | app/src/main/java/ru/macdroid/ollama/data/local/analytics/parser/LogParser.kt:162 | `filterValues { it != null }` keeps exactly the present values |
| `LogParser.ApacheFields` | app/src/main/java/ru/macdroid/ollama/data/local/analytics/parser/LogParser.kt:150-163 | `parseApacheLog`; `ApacheRequired`, `ApacheOptional` and `ApacheKeys` state its fields |
| `LogParser.ApacheRequired` | app/src/main/java/ru/macdroid/ollama/data/local/analytics/parser/LogParser.kt:150-163 | an Apache line always has ip, timestamp, request, status and size |
| `LogParser.ApacheOptional` | app/src/main/java/ru/macdroid/ollama/data/local/analytics/parser/LogParser.kt:154-161 | identity and user appear exactly when not `-`; referer and user agent exactly when neither blank nor `-` |
| `LogParser.ApacheKeys` | app/src/main/java/ru/macdroid/ollama/data/local/analytics/parser/LogParser.kt:152-162 | an Apache line has no field beyond the nine |
| `LogParser.SimpleRestAt` | app/src/main/java/ru/macdroid/ollama/data/local/analytics/parser/LogParser.kt:31-33 | whitespace then a message: the message is the rest of the line |
| `LogParser.MatchBracketed` | app/src/main/java/ru/macdroid/ollama/data/local/analytics/parser/LogParser.kt:31-33 | `[level]`, whitespace, message matches the bracketed alternative |
| `LogParser.SimpleFields` | app/src/main/java/ru/macdroid/ollama/data/local/analytics/parser/LogParser.kt:165-172 | `parseSimpleLog`; `SimpleBracketed`, `SimpleColon` and `SimpleLevel` state its fields |
| `LogParser.SimpleBracketed` | app/src/main/java/ru/macdroid/ollama/data/local/analytics/parser/LogParser.kt:165-172 | `[level] message` gives the upper-cased level and the message |
| `LogParser.MatchColon` | app/src/main/java/ru/macdroid/ollama/data/local/analytics/parser/LogParser.kt:31-33 | `level:`, whitespace, message matches the colon alternative |
| `LogParser.SimpleColon` | app/src/main/java/ru/macdroid/ollama/data/local/analytics/parser/LogParser.kt:165-172 | `level: message` gives the upper-cased level and the message |
| `LogParser.SimpleLevel` | app/src/main/java/ru/macdroid/ollama/data/local/analytics/parser/LogParser.kt:167 | a Simple match takes its level from exactly one alternative, and the level is a word |
| `LogParser.MentionHint` | app/src/main/java/ru/macdroid/ollama/data/local/analytics/parser/LogParser.kt:193-195 | a key containing `time` or `date` anywhere, in any case, is a TIMESTAMP column |
| `LogParser.KeyHint` | app/src/main/java/ru/macdroid/ollama/data/local/analytics/parser/LogParser.kt:193-198 | the name hints of `inferColumnType`, tried in order on the lower-cased key; `KeyHintSpec` states them for every key |
| `LogParser.KeyHintSpec` | app/src/main/java/ru/macdroid/ollama/data/local/analytics/parser/LogParser.kt:193-198 | for every key, on its lower case: TIMESTAMP exactly when it contains `time` or `date`; STRING exactly when it is `level`; INTEGER exactly when it is `status`, `code`, `size`, `bytes` or `count`; no hint exactly in every other case |
| `LogParser.NamesDoNotMentionTime` | app/src/main/java/ru/macdroid/ollama/data/local/analytics/parser/LogParser.kt:194-198 | none of `level`, `status`, `code`, `size`, `bytes` and `count` contains `time` or `date`, so no later rule is shadowed by the first |
| `LogParser.InferColumnType` | app/src/main/java/ru/macdroid/ollama/data/local/analytics/parser/LogParser.kt:191-205 | `inferColumnType`: the name hint, otherwise the values decide; `KeyHintSpec`, `UnhintedKey` and `InferFromValues` state it |
| `LogParser.UnhintedKey` | app/src/main/java/ru/macdroid/ollama/data/local/analytics/parser/LogParser.kt:199-203 | a key that matches none of the name rules takes its type from its values |
| `LogParser.InferFromValues` | app/src/main/java/ru/macdroid/ollama/data/local/analytics/parser/LogParser.kt:199-203 | without a hint the type is the most frequent inferred type of the values, STRING without values |
| `LogParser.SampleValues` | app/src/main/java/ru/macdroid/ollama/data/local/analytics/parser/LogParser.kt:87 | at most one sampled value per row |
| `LogParser.LogColumns` | app/src/main/java/ru/macdroid/ollama/data/local/analytics/parser/LogParser.kt:86-90 | one nullable column per key, typed from the first ten rows |
| `LogParser.Parse` | app/src/main/java/ru/macdroid/ollama/data/local/analytics/parser/LogParser.kt:42-104 | the parse method emits exactly the events of the specification function |
| `LogParser.Load` | app/src/main/java/ru/macdroid/ollama/data/local/analytics/parser/LogParser.kt:63-99 | the part after format detection emits exactly the load events |
| `LogParser.LoadRows` | app/src/main/java/ru/macdroid/ollama/data/local/analytics/parser/LogParser.kt:68-78 | after `n` lines, the rows are the non-empty maps and the keys are their union, with one report per hundred lines |
| `LogParser.LoadLine` | app/src/main/java/ru/macdroid/ollama/data/local/analytics/parser/LogParser.kt:69-77 | one pass keeps line `index`'s map when it is non-empty, adds its keys and reports every hundredth line |
| `LogParser.LogRowsAll` | app/src/main/java/ru/macdroid/ollama/data/local/analytics/parser/LogParser.kt:68-74 | every line becomes a row, in order |
| `LogParser.KeysOfMembers` | app/src/main/java/ru/macdroid/ollama/data/local/analytics/parser/LogParser.kt:72 | the collected keys are those of some row |
| `LogParser.RawKeys` | app/src/main/java/ru/macdroid/ollama/data/local/analytics/parser/LogParser.kt:136 | RAW rows have the single key `line` |
| `LogParser.RawSchema` | app/src/main/java/ru/macdroid/ollama/data/local/analytics/parser/LogParser.kt:86-90 | RAW lines give the single column `line` |
| `LogParser.LogEvents` | app/src/main/java/ru/macdroid/ollama/data/local/analytics/parser/LogParser.kt:42-104 | the events `parse` emits; `LogWellFormed`, `LogErrors` and `LogSuccess` state their shape and outcomes |
| `LogParser.CountRows` | app/src/main/java/ru/macdroid/ollama/data/local/analytics/parser/LogParser.kt:106-108 | `countRows` as the number of non-blank lines; `LogSuccess` ties it to the parsed total |
| `LogParser.LoadWellFormed` | app/src/main/java/ru/macdroid/ollama/data/local/analytics/parser/LogParser.kt:63-99 | the load emits reports and then one terminal event |
| `LogParser.LogWellFormed` | app/src/main/java/ru/macdroid/ollama/data/local/analytics/parser/LogParser.kt:42-104 | every parse is reports followed by exactly one `Success` or `Error` |
| `LogParser.LoadErrors` | app/src/main/java/ru/macdroid/ollama/data/local/analytics/parser/LogParser.kt:63-104 | after format detection: an error exactly for a limit of zero or less, with the failing `take`'s message for a negative limit and "Could not parse any log lines" for zero |
| `LogParser.LogErrors` | app/src/main/java/ru/macdroid/ollama/data/local/analytics/parser/LogParser.kt:42-104 | the parse fails exactly for blank content or a limit of zero or less; "No log lines found" cannot be emitted |
| `LogParser.LogDataShape` | app/src/main/java/ru/macdroid/ollama/data/local/analytics/parser/LogParser.kt:85-97 | the total counts every line, the rows are the first lines' maps, `isSampled` holds exactly when lines were left out, the columns are the sorted keys, all nullable |
| `LogParser.LogSuccess` | app/src/main/java/ru/macdroid/ollama/data/local/analytics/parser/LogParser.kt:42-108 | for non-blank content and a positive limit: two reports, one per hundred lines, then success; the total is what `countRows` returns |
| `Votes.Count` | app/src/main/java/ru/macdroid/ollama/data/local/analytics/parser/CsvParser.kt:100 | a count is positive exactly for an element that occurs |
| `Votes.CountSplit` | app/src/main/java/ru/macdroid/ollama/data/local/analytics/parser/CsvParser.kt:100 | counts add up over concatenation |
| `Votes.Distinct` | app/src/main/java/ru/macdroid/ollama/data/local/analytics/StatisticsCalculator.kt:101 | the distinct elements: no duplicates and the same elements as the input |
| `Votes.DistinctOrder` | app/src/main/java/ru/macdroid/ollama/data/local/analytics/StatisticsCalculator.kt:101 | the distinct elements come in order of first occurrence |
| `Votes.FirstMaxIndex` | app/src/main/java/ru/macdroid/ollama/data/local/analytics/parser/CsvParser.kt:104 | `maxByOrNull` picks the first key with the greatest count |
| `Votes.Majority` | app/src/main/java/ru/macdroid/ollama/data/local/analytics/parser/CsvParser.kt:150-154 | the vote is `null` exactly for no votes, and otherwise one of the votes |
| `Votes.MajorityIsMostFrequent` | app/src/main/java/ru/macdroid/ollama/data/local/analytics/parser/CsvParser.kt:150-154 | the vote occurs at least as often as any other element |
| `Votes.MajorityIsFirstOfTies` | app/src/main/java/ru/macdroid/ollama/data/local/analytics/parser/CsvParser.kt:150-154 | anything seen before the vote's first occurrence is strictly less frequent |
| `Votes.BeforeFirstMax` | app/src/main/java/ru/macdroid/ollama/data/local/analytics/parser/CsvParser.kt:104 | keys before the first maximum have strictly smaller counts |
| `Votes.MajorityOfUniform` | app/src/main/java/ru/macdroid/ollama/data/local/analytics/parser/CsvParser.kt:150-154 | identical votes elect that value |
| `StatisticsCalculator.NonNullValues` | app/src/main/java/ru/macdroid/ollama/data/local/analytics/StatisticsCalculator.kt:41 | the kept values are non-blank and no more than the inputs |
| `StatisticsCalculator.NonNullSpec` | app/src/main/java/ru/macdroid/ollama/data/local/analytics/StatisticsCalculator.kt:41 | a value is kept exactly when it is present and non-blank |
| `StatisticsCalculator.NonNullCount` | app/src/main/java/ru/macdroid/ollama/data/local/analytics/StatisticsCalculator.kt:42 | the null count is the number of missing or blank values |
| `StatisticsCalculator.Numbers` | app/src/main/java/ru/macdroid/ollama/data/local/analytics/StatisticsCalculator.kt:69 | at most one number per value |
| `StatisticsCalculator.NumbersSpec` | app/src/main/java/ru/macdroid/ollama/data/local/analytics/StatisticsCalculator.kt:69 | the numbers are exactly the values `toDoubleOrNull` accepts |
| `StatisticsCalculator.ValueCounts` | app/src/main/java/ru/macdroid/ollama/data/local/analytics/StatisticsCalculator.kt:101 | each distinct value once, in order of first occurrence, with its count |
| `StatisticsCalculator.InsertDesc` | app/src/main/java/ru/macdroid/ollama/data/local/analytics/StatisticsCalculator.kt:103 | an insertion adds one entry |
| `StatisticsCalculator.InsertDescPermutes` | app/src/main/java/ru/macdroid/ollama/data/local/analytics/StatisticsCalculator.kt:103 | an insertion adds the entry and loses nothing |
| `StatisticsCalculator.SortDesc` | app/src/main/java/ru/macdroid/ollama/data/local/analytics/StatisticsCalculator.kt:103 | the sort keeps the length |
| `StatisticsCalculator.SortDescPermutes` | app/src/main/java/ru/macdroid/ollama/data/local/analytics/StatisticsCalculator.kt:103 | the sort is a permutation |
| `StatisticsCalculator.SortDescOrdered` | app/src/main/java/ru/macdroid/ollama/data/local/analytics/StatisticsCalculator.kt:103 | the sort orders by non-increasing count |
| `StatisticsCalculator.SortDescStable` | app/src/main/java/ru/macdroid/ollama/data/local/analytics/StatisticsCalculator.kt:103 | the sort is stable: entries with equal counts keep their order |
| `StatisticsCalculator.InsertDescOrdered` | app/src/main/java/ru/macdroid/ollama/data/local/analytics/StatisticsCalculator.kt:103 | an insertion keeps the order by count |
| `StatisticsCalculator.InsertDescStable` | app/src/main/java/ru/macdroid/ollama/data/local/analytics/StatisticsCalculator.kt:103 | an insertion goes after the entries with its own count |
| `StatisticsCalculator.TopValues` | app/src/main/java/ru/macdroid/ollama/data/local/analytics/StatisticsCalculator.kt:101-105 | the `topValues` of a column: value counts by descending count, stably, first ten; `TopValuesSpec`, `TopValuesDistinct`, `TopValuesMaximal` and `TopValuesStable` state it |
| `StatisticsCalculator.TopValuesSpec` | app/src/main/java/ru/macdroid/ollama/data/local/analytics/StatisticsCalculator.kt:101-105 | at most ten top values, as many as there are distinct values up to ten, each a real value with its true count, by non-increasing count |
| `StatisticsCalculator.TopValuesDistinct` | app/src/main/java/ru/macdroid/ollama/data/local/analytics/StatisticsCalculator.kt:101-105 | no value is listed twice |
| `StatisticsCalculator.TopValuesMaximal` | app/src/main/java/ru/macdroid/ollama/data/local/analytics/StatisticsCalculator.kt:101-105 | no value left out occurs more often than a listed one |
| `StatisticsCalculator.TopValuesStable` | app/src/main/java/ru/macdroid/ollama/data/local/analytics/StatisticsCalculator.kt:101-105 | the top values are the head of the stable sort, ties in first-occurrence order |
| `StatisticsCalculator.SortedEntry` | app/src/main/java/ru/macdroid/ollama/data/local/analytics/StatisticsCalculator.kt:101-103 | each sorted entry is a value with its true, positive count |
| `StatisticsCalculator.SortedKeysDistinct` | app/src/main/java/ru/macdroid/ollama/data/local/analytics/StatisticsCalculator.kt:101-103 | the sorted entries name each value once |
| `StatisticsCalculator.NumericStats` | app/src/main/java/ru/macdroid/ollama/data/local/analytics/StatisticsCalculator.kt:63-93 | numeric statistics count the values that parse; text statistics over all values when none does |
| `StatisticsCalculator.CategoricalStats` | app/src/main/java/ru/macdroid/ollama/data/local/analytics/StatisticsCalculator.kt:95-115 | categorical statistics count every value |
| `StatisticsCalculator.TextStats` | app/src/main/java/ru/macdroid/ollama/data/local/analytics/StatisticsCalculator.kt:117-134 | text statistics count every value |
| `StatisticsCalculator.LengthBounds` | app/src/main/java/ru/macdroid/ollama/data/local/analytics/StatisticsCalculator.kt:123-133 | min and max length are 0 without values; otherwise they occur and bound every length |
| `StatisticsCalculator.AverageBetween` | app/src/main/java/ru/macdroid/ollama/data/local/analytics/StatisticsCalculator.kt:130 | with values, the average length lies between the shortest and longest |
| `StatisticsCalculator.ColumnStats` | app/src/main/java/ru/macdroid/ollama/data/local/analytics/StatisticsCalculator.kt:36-61 | name and type are kept; the null count is the number of values dropped as null or blank |
| `StatisticsCalculator.ColumnStatsCounts` | app/src/main/java/ru/macdroid/ollama/data/local/analytics/StatisticsCalculator.kt:36-61 | the null count is the number of missing or blank values; non-null and null counts add up to the values (at most, for numeric) |
| `StatisticsCalculator.IsCategorical` | app/src/main/java/ru/macdroid/ollama/data/local/analytics/StatisticsCalculator.kt:54 | the categorical test: at most 20 distinct values, or at most half the non-null count, rounded down; `ColumnStatsKind` states its use |
| `StatisticsCalculator.ColumnStatsKind` | app/src/main/java/ru/macdroid/ollama/data/local/analytics/StatisticsCalculator.kt:44-60 | BOOLEAN is categorical; a numeric type gets numeric statistics exactly when a value parses; the others are categorical exactly under the threshold rule, text otherwise |
| `StatisticsCalculator.ColumnValues` | app/src/main/java/ru/macdroid/ollama/data/local/analytics/StatisticsCalculator.kt:26 | one value per row, the row's value for the column |
| `StatisticsCalculator.Calculate` | app/src/main/java/ru/macdroid/ollama/data/local/analytics/StatisticsCalculator.kt:24-34 | `calculate`; `CalculateShape` states one record per column with the total row count |
| `StatisticsCalculator.CalculateShape` | app/src/main/java/ru/macdroid/ollama/data/local/analytics/StatisticsCalculator.kt:24-34 | one record per schema column, in order, with the column's name and type; the total is the data's |
| `Statistics.ToSummaryString` | app/src/main/java/ru/macdroid/ollama/domain/model/analytics/DataStatistics.kt:10-38 | the `StringBuilder` loop writes the summary's lines, each ended by a newline |
| `Statistics.WriteColumn` | app/src/main/java/ru/macdroid/ollama/domain/model/analytics/DataStatistics.kt:16-34 | one column adds its header, its counts and its variant's lines |
| `Statistics.WriteVariant` | app/src/main/java/ru/macdroid/ollama/domain/model/analytics/DataStatistics.kt:19-34 | the `when` over the statistics kind adds that kind's lines |
| `Statistics.AppendLine` | app/src/main/java/ru/macdroid/ollama/domain/model/analytics/DataStatistics.kt:12 | `appendLine` adds the line and a newline |
| `Statistics.ColumnLineCount` | app/src/main/java/ru/macdroid/ollama/domain/model/analytics/DataStatistics.kt:16-34 | a column block: header and count lines, then 3 lines for numeric, 1 or 2 for categorical (top values only when there are some), 1 for text |
| `Statistics.TopValuesShown` | app/src/main/java/ru/macdroid/ollama/domain/model/analytics/DataStatistics.kt:28 | at most five top values are shown, the first ones, in order |
| `Statistics.SummaryHeading` | app/src/main/java/ru/macdroid/ollama/domain/model/analytics/DataStatistics.kt:12-13 | the summary opens with the total rows and the number of columns |
| `Statistics.SummaryLayout` | app/src/main/java/ru/macdroid/ollama/domain/model/analytics/DataStatistics.kt:15-35 | after the heading come the column blocks in order, and nothing else |
| `Statistics.SummaryLinesUnbroken` | app/src/main/java/ru/macdroid/ollama/domain/model/analytics/DataStatistics.kt:10-38 | without line breaks in names, top values and formatted numbers, no summary line holds a break |
| `Statistics.SummaryRoundTrip` | app/src/main/java/ru/macdroid/ollama/domain/model/analytics/DataStatistics.kt:10-38 | then the summary text splits back into exactly its lines and the empty rest |
| `Sampler.Shuffled` | app/src/main/java/ru/macdroid/ollama/data/local/analytics/DataSampler.kt:68 | shuffling keeps the length |
| `Sampler.TakeShuffledSlice` | app/src/main/java/ru/macdroid/ollama/data/local/analytics/DataSampler.kt:67-68 | the first `k` shuffled rows of a range are rows from inside that range |
| `Sampler.TakeLast` | app/src/main/java/ru/macdroid/ollama/data/local/analytics/DataSampler.kt:60 | `takeLast(n)`: the last `min(n, size)` rows |
| `Sampler.FifthBounds` | app/src/main/java/ru/macdroid/ollama/data/local/analytics/DataSampler.kt:55-59 | head and tail counts together never exceed the sample size |
| `Sampler.Stratified` | app/src/main/java/ru/macdroid/ollama/data/local/analytics/DataSampler.kt:49-77 | `stratifiedSample` as a function; `StratifiedSample` computes it and `StratifiedSmall`, `StratifiedLarge` and `StratifiedLargeMiddle` state what it gives |
| `Sampler.StratifiedSample` | app/src/main/java/ru/macdroid/ollama/data/local/analytics/DataSampler.kt:49-77 | the method computes the stratified-sample function |
| `Sampler.AssembleSample` | app/src/main/java/ru/macdroid/ollama/data/local/analytics/DataSampler.kt:52-76 | the list building after the size check computes the same function |
| `Sampler.StratifiedSmall` | app/src/main/java/ru/macdroid/ollama/data/local/analytics/DataSampler.kt:50 | rows that fit are returned unchanged |
| `Sampler.StratifiedParts` | app/src/main/java/ru/macdroid/ollama/data/local/analytics/DataSampler.kt:52-76 | a larger data set gives its head, middle stratum and tail |
| `Sampler.StratifiedMiddleSpec` | app/src/main/java/ru/macdroid/ollama/data/local/analytics/DataSampler.kt:62-71 | the middle stratum fills what head and tail leave, from distinct rows strictly between them |
| `Sampler.StratifiedLarge` | app/src/main/java/ru/macdroid/ollama/data/local/analytics/DataSampler.kt:49-77 | a larger data set gives exactly `sampleSize` rows: the first and the last `sampleSize / 5` rows around the middle |
| `Sampler.StratifiedLargeMiddle` | app/src/main/java/ru/macdroid/ollama/data/local/analytics/DataSampler.kt:62-74 | between head and tail the sample holds distinct middle rows |
| `Sampler.Sample` | app/src/main/java/ru/macdroid/ollama/data/local/analytics/DataSampler.kt:26-43 | `sample`; `SampleSize`, `SampleNegative` and `SampleDefault` state its size, its failure and its default |
| `Sampler.SampleSize` | app/src/main/java/ru/macdroid/ollama/data/local/analytics/DataSampler.kt:26-43 | the sample has `min(rows, target)` rows, at most `maxSampleSize`; full data is a prefix; rows that fit come back unchanged |
| `Sampler.SampleNegative` | app/src/main/java/ru/macdroid/ollama/data/local/analytics/DataSampler.kt:26-43 | a negative maximum throws, except for a stratified sample of no rows with a small negative size |
| `Sampler.SampleDefault` | app/src/main/java/ru/macdroid/ollama/data/local/analytics/DataSampler.kt:26-43 | with the default of 100: at most 100 rows, at most 20 when aggregated, exactly 100 for a large statistical data set |
| `Sampler.DetermineStrategy` | app/src/main/java/ru/macdroid/ollama/data/local/analytics/DataSampler.kt:82-84 | the sampler's thresholds 500 and 5000 decide the strategy |
| `TokenBudget.Wrap` | app/src/main/java/ru/macdroid/ollama/data/local/analytics/TokenBudgetManager.kt:81-82 | Kotlin `Int` arithmetic: the Int equal to `x` modulo 2^32 |
| `TokenBudget.WrapQuotient` | app/src/main/java/ru/macdroid/ollama/data/local/analytics/TokenBudgetManager.kt:81-82 | an integer differs from its wrapped value by a multiple of 2^32 |
| `TokenBudget.WrapUnique` | app/src/main/java/ru/macdroid/ollama/data/local/analytics/TokenBudgetManager.kt:81-82 | the wrapped value is the only Int that does |
| `TokenBudget.WrapAdd` | app/src/main/java/ru/macdroid/ollama/data/local/analytics/TokenBudgetManager.kt:81 | wrapping a partial sum does not change the wrapped total |
| `TokenBudget.WrapSubtract` | app/src/main/java/ru/macdroid/ollama/data/local/analytics/TokenBudgetManager.kt:82 | wrapping the subtrahend does not change the wrapped difference |
| `TokenBudget.WrapInt` | app/src/main/java/ru/macdroid/ollama/data/local/analytics/TokenBudgetManager.kt:81-82 | an Int wraps to itself |
| `TokenBudget.Saturate` | app/src/main/java/ru/macdroid/ollama/data/local/analytics/TokenBudgetManager.kt:64 | `Double.toInt` keeps Int values and saturates beyond the bounds |
| `TokenBudget.EstimateTokens` | app/src/main/java/ru/macdroid/ollama/data/local/analytics/TokenBudgetManager.kt:35-37 | the estimate is the length divided by four, rounded down |
| `TokenBudget.CharLimit` | app/src/main/java/ru/macdroid/ollama/data/local/analytics/TokenBudgetManager.kt:64 | the character limit of an Int token count is an Int |
| `TokenBudget.CharLimitExact` | app/src/main/java/ru/macdroid/ollama/data/local/analytics/TokenBudgetManager.kt:64 | four characters per token whenever the product stays in Int |
| `TokenBudget.SchemaCharLimit` | app/src/main/java/ru/macdroid/ollama/data/local/analytics/TokenBudgetManager.kt:42-44 | 400 characters for the schema |
| `TokenBudget.StatisticsCharLimit` | app/src/main/java/ru/macdroid/ollama/data/local/analytics/TokenBudgetManager.kt:49-51 | 1200 characters for the statistics |
| `TokenBudget.DataSampleCharLimit` | app/src/main/java/ru/macdroid/ollama/data/local/analytics/TokenBudgetManager.kt:56-58 | 8000 characters for the sample |
| `TokenBudget.TruncateToTokens` | app/src/main/java/ru/macdroid/ollama/data/local/analytics/TokenBudgetManager.kt:63-70 | `truncateToTokens`; `TruncateFits`, `TruncateExact`, `TruncateIdempotent`, `TruncateFailure` and `TruncateWrapsAround` state it |
| `TokenBudget.TruncateFits` | app/src/main/java/ru/macdroid/ollama/data/local/analytics/TokenBudgetManager.kt:63-70 | for a positive budget the result fits the limit, is the text itself when it fits, and otherwise its prefix and `...` |
| `TokenBudget.TruncateExact` | app/src/main/java/ru/macdroid/ollama/data/local/analytics/TokenBudgetManager.kt:63-70 | for an ordinary budget the limit is exactly four characters per token |
| `TokenBudget.TruncateIdempotent` | app/src/main/java/ru/macdroid/ollama/data/local/analytics/TokenBudgetManager.kt:63-70 | truncating twice to a positive budget changes nothing the second time |
| `TokenBudget.TruncateFailure` | app/src/main/java/ru/macdroid/ollama/data/local/analytics/TokenBudgetManager.kt:63-70 | `take` throws exactly when the text is too long and the limit minus three is negative without wrapping, and the failure carries `String.take`'s message "Requested character count N is less than zero." for that count |
| `TokenBudget.TruncateWrapsAround` | app/src/main/java/ru/macdroid/ollama/data/local/analytics/TokenBudgetManager.kt:63-70 | a hugely negative budget wraps: the whole text with `...` appended |
| `TokenBudget.RemainingTokens` | app/src/main/java/ru/macdroid/ollama/data/local/analytics/TokenBudgetManager.kt:75-83 | `calculateRemainingTokens` with each `Int` step wrapping; `RemainingTokensSpec` and `RemainingAtBudgets` state it |
| `TokenBudget.RemainingTokensSpec` | app/src/main/java/ru/macdroid/ollama/data/local/analytics/TokenBudgetManager.kt:75-83 | the remaining tokens are 2500 minus the parts, wrapped to Int, and exact when no overflow occurs |
| `TokenBudget.RemainingAtBudgets` | app/src/main/java/ru/macdroid/ollama/data/local/analytics/TokenBudgetManager.kt:75-83 | the parts at their budgets leave 0 tokens |
| `TokenBudget.FitsWithinBudget` | app/src/main/java/ru/macdroid/ollama/data/local/analytics/TokenBudgetManager.kt:88-90 | `fitsWithinBudget`; `ContextBuilder.BuildContext` ensures every built context satisfies it |
| `TokenBudget.MaxRows` | app/src/main/java/ru/macdroid/ollama/data/local/analytics/TokenBudgetManager.kt:96-100 | `calculateMaxRows`; `MaxRowsSpec` states it |
| `TokenBudget.MaxRowsSpec` | app/src/main/java/ru/macdroid/ollama/data/local/analytics/TokenBudgetManager.kt:96-100 | 0 for a non-positive row size; otherwise the whole rows that fit the available characters, division truncated toward zero |
| `Analytics.BudgetPartsSum` | app/src/main/java/ru/macdroid/ollama/domain/model/analytics/AnalyticsContext.kt:41-47 | the budget parts add up to 3000 |
| `Analytics.ForRowCount` | app/src/main/java/ru/macdroid/ollama/domain/model/analytics/AnalyticsContext.kt:71-75 | FULL_DATA below 500, STATISTICAL below 5000, AGGREGATED otherwise, each an if-and-only-if |
| `Analytics.ForRowCountMonotone` | app/src/main/java/ru/macdroid/ollama/domain/model/analytics/AnalyticsContext.kt:71-75 | more rows never give an earlier strategy |
| `Analytics.AnalyticsContext.ToPromptContext` | app/src/main/java/ru/macdroid/ollama/domain/model/analytics/AnalyticsContext.kt:17-28 | the context is its eight `appendLine` arguments, each ended by a newline |
| `Analytics.PromptLinesText` | app/src/main/java/ru/macdroid/ollama/domain/model/analytics/AnalyticsContext.kt:18-27 | those eight lines written out are the headings, the blocks and the blank separators |
| `Analytics.PromptContextLayout` | app/src/main/java/ru/macdroid/ollama/domain/model/analytics/AnalyticsContext.kt:17-28 | the length is the blocks' plus 49; the text opens with the schema heading, the schema and the statistics heading, and ends with the sample and a newline |
| `Analytics.PromptLinesUnbroken` | app/src/main/java/ru/macdroid/ollama/domain/model/analytics/AnalyticsContext.kt:18-27 | without breaks in the blocks, none of the eight lines has one |
| `Analytics.PromptBlocksSplice` | app/src/main/java/ru/macdroid/ollama/domain/model/analytics/AnalyticsContext.kt:17-28 | a block that is whole lines and an unfinished last line, passed to `appendLine`, writes those lines in its place |
| `Analytics.PromptContextLines` | app/src/main/java/ru/macdroid/ollama/domain/model/analytics/AnalyticsContext.kt:17-28 | when each block is whole lines and an unfinished last line (`SplitsInto`), the prompt context splits back into the headings, the blocks' lines and the blank lines between sections |
| `ContextBuilder.BuildSchemaDescription` | app/src/main/java/ru/macdroid/ollama/data/local/analytics/ContextBuilder.kt:70-78 | the loop writes the schema lines, each ended by a newline |
| `ContextBuilder.SchemaLayout` | app/src/main/java/ru/macdroid/ollama/data/local/analytics/ContextBuilder.kt:70-78 | the heading counts the columns and line `i + 1` describes column `i` |
| `ContextBuilder.ColumnLineSpec` | app/src/main/java/ru/macdroid/ollama/data/local/analytics/ContextBuilder.kt:74-75 | a column line names the column and type, and ends in `, nullable` exactly for a nullable column |
| `ContextBuilder.SchemaRoundTrip` | app/src/main/java/ru/macdroid/ollama/data/local/analytics/ContextBuilder.kt:70-78 | without breaks in the names, the schema text splits back into its lines |
| `ContextBuilder.SchemaLinesUnbroken` | app/src/main/java/ru/macdroid/ollama/data/local/analytics/ContextBuilder.kt:70-78 | with unbroken column names, no schema line holds a break |
| `ContextBuilder.BuildStatisticsSummary` | app/src/main/java/ru/macdroid/ollama/data/local/analytics/ContextBuilder.kt:80-94 | the method writes the statistics block's lines |
| `ContextBuilder.StatisticsLines` | app/src/main/java/ru/macdroid/ollama/data/local/analytics/ContextBuilder.kt:86-92 | the lines `buildStatisticsSummary` writes, as a definition; `StatisticsLayout` states them and `BuildStatisticsSummary` writes them |
| `ContextBuilder.StatisticsLayout` | app/src/main/java/ru/macdroid/ollama/data/local/analytics/ContextBuilder.kt:80-94 | total and strategy, then, only for present statistics, a blank line and the summary's lines |
| `ContextBuilder.StatisticsRoundTrip` | app/src/main/java/ru/macdroid/ollama/data/local/analytics/ContextBuilder.kt:80-94 | without breaks in the summary, the block splits back into its lines |
| `ContextBuilder.StatisticsLinesUnbroken` | app/src/main/java/ru/macdroid/ollama/data/local/analytics/ContextBuilder.kt:80-94 | with unbroken statistics, no line of the statistics block holds a break |
| `ContextBuilder.CellText` | app/src/main/java/ru/macdroid/ollama/data/local/analytics/ContextBuilder.kt:130-132 | a cell is at most 50 characters |
| `ContextBuilder.CellTextSpec` | app/src/main/java/ru/macdroid/ollama/data/local/analytics/ContextBuilder.kt:130-132 | a missing value is empty; up to 50 characters verbatim; a longer value is its first 47 characters and `...` |
| `ContextBuilder.Rule` | app/src/main/java/ru/macdroid/ollama/data/local/analytics/ContextBuilder.kt:125 | the dashes under a name: as many as its length, at most 15 |
| `ContextBuilder.Cells` | app/src/main/java/ru/macdroid/ollama/data/local/analytics/ContextBuilder.kt:129-133 | one cell per column name |
| `ContextBuilder.TableCells` | app/src/main/java/ru/macdroid/ollama/data/local/analytics/ContextBuilder.kt:125-133 | the separator under each header and each row's cells, column by column |
| `ContextBuilder.WritePreamble` | app/src/main/java/ru/macdroid/ollama/data/local/analytics/ContextBuilder.kt:106-118 | the `when` over the strategy writes the preamble lines |
| `ContextBuilder.PreambleSpec` | app/src/main/java/ru/macdroid/ollama/data/local/analytics/ContextBuilder.kt:106-118 | no preamble for full data; otherwise the strategy's note with the row count and a blank line |
| `ContextBuilder.SampleText` | app/src/main/java/ru/macdroid/ollama/data/local/analytics/ContextBuilder.kt:96-137 | the text of `buildDataSample`: "No data available" for no rows, otherwise its lines; `BuildDataSample` writes it and `SampleLayout` states its lines |
| `ContextBuilder.BuildDataSample` | app/src/main/java/ru/macdroid/ollama/data/local/analytics/ContextBuilder.kt:96-137 | "No data available" for no rows; otherwise the sample lines, each ended by a newline |
| `ContextBuilder.SampleLayout` | app/src/main/java/ru/macdroid/ollama/data/local/analytics/ContextBuilder.kt:105-136 | preamble, header of the names joined by a spaced vertical bar, separator, then one line per row in order |
| `ContextBuilder.SampleLinesUnbroken` | app/src/main/java/ru/macdroid/ollama/data/local/analytics/ContextBuilder.kt:105-136 | with unbroken column names and values, no line of the sample block holds a break |
| `ContextBuilder.SampleTextSplits` | app/src/main/java/ru/macdroid/ollama/data/local/analytics/ContextBuilder.kt:96-137 | the sample block is "No data available" alone, or whole lines only |
| `ContextBuilder.Truncated` | app/src/main/java/ru/macdroid/ollama/data/local/analytics/ContextBuilder.kt:34-52 | a section budget always truncates successfully, to at most four characters per token |
| `ContextBuilder.TruncatedSplits` | app/src/main/java/ru/macdroid/ollama/data/local/analytics/ContextBuilder.kt:33-51 | a block cut to its section budget is a prefix of its lines followed by an unfinished last line |
| `ContextBuilder.BuildContext` | app/src/main/java/ru/macdroid/ollama/data/local/analytics/ContextBuilder.kt:26-68 | each block built and truncated to its budget; the estimate is the blocks' tokens plus the system and question budgets; it stays within 2700 and so within the total budget |
| `ContextBuilder.BuiltContextLines` | app/src/main/java/ru/macdroid/ollama/data/local/analytics/ContextBuilder.kt:26-68 | for a built context whose names, values and statistics hold no breaks, each block is a prefix of that block's lines plus an unfinished last line, and the prompt context splits back into them |
| `ContextBuilder.BuildFullPrompt` | app/src/main/java/ru/macdroid/ollama/data/local/analytics/ContextBuilder.kt:144-154 | `buildFullPrompt`; `FullPromptText`, `FullPromptLines` and `FullPromptIgnoresSystemPrompt` state it |
| `ContextBuilder.FullPromptText` | app/src/main/java/ru/macdroid/ollama/data/local/analytics/ContextBuilder.kt:144-154 | the full prompt is the banner, the context's lines and the question block, each ended by a newline |
| `ContextBuilder.FullPromptLines` | app/src/main/java/ru/macdroid/ollama/data/local/analytics/ContextBuilder.kt:144-154 | with blocks of whole lines and an unfinished last line, and a one-line question, the prompt splits back into the banners, the prompt context's lines and the question |
| `ContextBuilder.FullPromptIgnoresSystemPrompt` | app/src/main/java/ru/macdroid/ollama/data/local/analytics/ContextBuilder.kt:139-154 | contexts with the same blocks give the same prompt, whatever their system prompt and estimate |
| `Text.TrimShape` | app/src/main/java/ru/macdroid/ollama/domain/model/analytics/ParsedData.kt:60 | `trim` gives a contiguous piece with blank margins that neither starts nor ends with whitespace |
| `Text.TrimEmptyIffBlank` | app/src/main/java/ru/macdroid/ollama/domain/model/analytics/ParsedData.kt:58-60 | trimming gives the empty text exactly for blank input |
| `Text.TrimIdempotent` | app/src/main/java/ru/macdroid/ollama/domain/model/analytics/ParsedData.kt:60 | trimming twice is trimming once |
| `Text.Lines` | app/src/main/java/ru/macdroid/ollama/data/local/analytics/parser/CsvParser.kt:33 | `lines()` gives at least one line, none containing a break |
| `Text.LinesBlank` | app/src/main/java/ru/macdroid/ollama/data/local/analytics/parser/CsvParser.kt:28-37 | a text is blank exactly when all its lines are |
| `Text.NonBlank` | app/src/main/java/ru/macdroid/ollama/data/local/analytics/parser/CsvParser.kt:33 | the non-blank lines are non-blank lines of the input |
| `Text.NonBlankLinesEmptyIff` | app/src/main/java/ru/macdroid/ollama/data/local/analytics/parser/CsvParser.kt:28-37 | no non-blank line exactly for blank content |
| `Text.LinesOfTerminated` | app/src/main/java/ru/macdroid/ollama/domain/model/analytics/DataStatistics.kt:10-38 | lines written with `appendLine` split back into those lines and the empty rest |
| `Text.SpliceBlock` | app/src/main/java/ru/macdroid/ollama/data/local/analytics/ContextBuilder.kt:144-154 | appending a block of whole lines and an unfinished last line as one line is appending those lines |
| `Text.PrefixSplits` | app/src/main/java/ru/macdroid/ollama/data/local/analytics/TokenBudgetManager.kt:63-70 | every prefix of such a block is again whole lines, a prefix of the block's own, and an unfinished last line |
| `Text.AppendSplits` | app/src/main/java/ru/macdroid/ollama/data/local/analytics/TokenBudgetManager.kt:68 | text without breaks added at the end extends the unfinished last line |
| `Text.Take` | app/src/main/java/ru/macdroid/ollama/data/local/analytics/DataSampler.kt:32 | `take(n)`: the first `min(n, size)` elements |
| `Text.Repeat` | app/src/main/java/ru/macdroid/ollama/data/local/analytics/ContextBuilder.kt:125 | `repeat(n)`: `n` copies of the character |
| `Text.SubstringAfterLast` | app/src/main/java/ru/macdroid/ollama/domain/model/analytics/DataFile.kt:32 | the missing-value default without the char; otherwise the part after its last occurrence |
| `Text.AsciiUpper` | app/src/main/java/ru/macdroid/ollama/data/local/analytics/parser/LogParser.kt:144 | `uppercase` of ASCII text, character by character |
| `Text.AsciiLower` | app/src/main/java/ru/macdroid/ollama/data/local/analytics/parser/LogParser.kt:193 | `lowercase` of ASCII text, character by character |
| `Text.SortedKeys` | app/src/main/java/ru/macdroid/ollama/data/local/analytics/parser/JsonParser.kt:143 | `sorted()` of a key set lists its keys in increasing order |
| `Text.SortedOfUnique` | app/src/main/java/ru/macdroid/ollama/data/local/analytics/parser/JsonParser.kt:143 | the sorted order of a key set is unique |
| `Text.HasLeast` | app/src/main/java/ru/macdroid/ollama/data/local/analytics/parser/JsonParser.kt:143 | every non-empty key set has a least key |

## Left out

- The Kotlin `Flow` and its coroutine are modelled as the sequence of emitted events. Cancellation and collection are not modelled.
- The `cause` of an `Error` is not modelled. The exception messages modelled are those of `take` with a negative count: "Requested element count N is less than zero." for a list `take` or `takeLast` (the parsers and the sampler), and "Requested character count N is less than zero." for `String.take` (`TokenBudget.TruncateToTokens`); other exceptions that the `catch` blocks would report come only from library code that is not part of this model.
- Floating point: the `min`, `max`, `avg` and `sum` of numeric statistics are not computed. The column keeps its list of numeric texts, and their rendering (`%.2f`, `%.1f` and `Double.toString`) is a `Formats` parameter. The average text length is an exact `real`, `None` where Kotlin would give `NaN`.
- `StatisticsCalculator.NumericStats`: does not state the numeric `min`/`max`/`avg`/`sum`, which are floating-point values the model does not compute.
- `StatisticsCalculator.AverageBetween`: states the average length as an exact rational, not the rounded `Double`.
- `NumberText` models only whether `toLongOrNull` and `toDoubleOrNull` accept a text, not the parsed value. Digits are ASCII only, so Unicode digits are not covered.
- Case-insensitive comparison uses Java's per-character upper/lower case mapping for the characters involved. `uppercase()` and `lowercase()` are modelled for ASCII only. Locale-dependent and multi-character case mappings are not.
- `parseToJsonElement` of kotlinx.serialization, and the lenient mode it is configured with, is the parameter `parse`. JSON text itself is not parsed. `JsonArray.toString()` and `JsonPrimitive.toString()` are rendered from the parsed structure (`JsonParser.Render`): compact, with `,` between entries and no spaces, strings quoted with JSON escapes, and other literals as their content.
- The `STANDARD_LOG_PATTERN` and `APACHE_LOG_PATTERN` regular expressions are matcher parameters that return their groups; their behaviour as regular expressions is not modelled. The Simple and Key-Value patterns are written out.
- `LOG_LEVELS` in LogParser is never used by the code, so it is not modelled.
- `Random(42)` shuffling is a permutation parameter that depends only on the list's size, as a fixed seed does. The actual order the seed produces is not modelled.
- `PromptTemplate.ANALYTICS.systemPrompt` is a parameter of `BuildContext`; PromptTemplate is not part of this model.
- The `DataFile` record fields `id`, `uri`, `sizeBytes` and `loadedAt` are not modelled, since they do I/O or read the clock. Only the `FileType` lookups are modelled.
- Kotlin `String` length is unbounded here. Lengths are assumed to fit an `Int`, which the JVM guarantees.
- `ParseException` and `FileParser.countRows` as an interface are not modelled separately. Each parser's `countRows` is a function used in the success lemmas.
- JSON nullability: the code records JSON `null` as the text `"null"`, because `JsonNull` is a `JsonPrimitive` and that branch comes first. The model follows the code, so JSON columns are never nullable (`JsonParser.JsonNeverNullable`).
- Text: Kotlin strings are sequences of UTF-16 code units, while the model's strings are sequences of Unicode scalar values. A supplementary character (outside the Basic Multilingual Plane, such as an emoji) is one character here and two code units in Kotlin. The members below are faithful for texts without supplementary characters and differ on texts that contain them.
- TokenBudget.EstimateTokens: counts a supplementary character as one unit where Kotlin's `length` counts two, so "😀😀" estimates to 0 tokens here and to 1 in Kotlin.
- TokenBudget.TruncateToTokens: compares and cuts in characters, not UTF-16 code units. With a budget of 10 tokens (40 units), a text of 26 emoji is kept whole here but cut in Kotlin, where its length is 52. Kotlin's `take` can also split a surrogate pair, which the model cannot express.
- TokenBudget.TruncateFits: states its bound in characters, not UTF-16 code units, for the reason given under `TokenBudget.TruncateToTokens`.
- ContextBuilder.CellText: measures and cuts a cell in characters, so a cell containing supplementary characters is cut later than Kotlin's `length > 50` and `take(47)` would cut it.
- ContextBuilder.CellTextSpec: states the 50-unit bound in characters, not UTF-16 code units, for the reason given under `ContextBuilder.CellText`.
- ContextBuilder.Rule: sizes the rule under the header from the header's length in characters, not in UTF-16 code units.
- StatisticsCalculator.LengthBounds: the minimum, maximum and average text lengths count characters, not UTF-16 code units.
- Text.StrLess: orders by code point, whereas Kotlin's `compareTo` compares UTF-16 code units. They differ only when a supplementary character is compared with a character from U+E000 to U+FFFF: "�" sorts before "😀" here and after it in Kotlin.
- Text.SortedKeys: sorts by `Text.StrLess`, so it agrees with Kotlin's `sorted()` only on keys without supplementary characters.
- LogParser.StandardFields: takes the standard pattern's groups from the matcher parameter, which is not required to give a level group of word characters (`\w+`) as the regular expression does. The level is upper-cased with the ASCII mapping (`Text.AsciiUpper`), which agrees with Kotlin's `uppercase()` only for the `\w+` levels the regular expression allows.
