/**
 * The table every parser produces: column types and their inference from a
 * sample value, the schema, rows as maps from column name to an optional
 * value, and the parsed-data record.
 */
module ParsedData {
  import opened Options
  import opened Text
  import opened NumberText

  // ---------------------------------------------------------------------------
  // Column types
  // ---------------------------------------------------------------------------

  datatype ColumnType = STRING | INTEGER | DECIMAL | BOOLEAN | TIMESTAMP | UNKNOWN

  /** The `displayName` of each type. */
  function DisplayName(t: ColumnType): string {
    match t
    case STRING => "String"
    case INTEGER => "Integer"
    case DECIMAL => "Decimal"
    case BOOLEAN => "Boolean"
    case TIMESTAMP => "Timestamp"
    case UNKNOWN => "Unknown"
  }

  /** `true` or `false`, ignoring case. */
  predicate IsBoolWord(t: string) {
    EqualsIgnoreCase(t, "true") || EqualsIgnoreCase(t, "false")
  }

  /** Whole-text match of a pattern in which `#` stands for one ASCII digit (`\d`)
      and every other character for itself. */
  predicate FitsPattern(s: string, pattern: string) {
    |s| == |pattern| &&
    forall i | 0 <= i < |s| :: if pattern[i] == '#' then IsAsciiDigit(s[i]) else s[i] == pattern[i]
  }

  const DATE_PATTERN: string := "####-##-##"
  const ISO_DATE_TIME_PATTERN: string := "####-##-##T##:##:##"
  const US_DATE_PATTERN: string := "##/##/####"
  const DATE_TIME_PATTERN: string := "####-##-## ##:##:##"

  /** `isTimestamp`: the value matches one of the four timestamp patterns in full. */
  predicate IsTimestamp(s: string) {
    FitsPattern(s, DATE_PATTERN) || FitsPattern(s, ISO_DATE_TIME_PATTERN)
    || FitsPattern(s, US_DATE_PATTERN) || FitsPattern(s, DATE_TIME_PATTERN)
  }

  /** `ColumnType.infer`: the first of boolean, integer, decimal and timestamp that
      the trimmed value passes, STRING if none, UNKNOWN for a missing or blank value. */
  function Infer(value: Option<string>): ColumnType {
    if value.None? || IsBlank(value.value) then UNKNOWN
    else
      var t := Trim(value.value);
      if IsBoolWord(t) then BOOLEAN
      else if IsLongText(t) then INTEGER
      else if IsDoubleText(t) then DECIMAL
      else if IsTimestamp(t) then TIMESTAMP
      else STRING
  }

  // ---------------------------------------------------------------------------
  // Schema, rows and parsed data
  // ---------------------------------------------------------------------------

  datatype ColumnInfo = ColumnInfo(name: string, columnType: ColumnType, nullable: bool)

  datatype DataSchema = DataSchema(columns: seq<ColumnInfo>)
  {
    /** `columnCount` */
    function ColumnCount(): (n: nat)
      ensures n == |columns|
    {
      |columns|
    }

    /** `columnNames()`: the names in schema order. */
    function ColumnNames(): (names: seq<string>)
      ensures |names| == |columns|
      ensures forall i | 0 <= i < |columns| :: names[i] == columns[i].name
    {
      seq(|columns|, i requires 0 <= i < |columns| => columns[i].name)
    }
  }

  /** A row: column name to value, where `None` is Kotlin's `null`. */
  datatype DataRow = DataRow(values: map<string, Option<string>>)
  {
    /** `row[name]`: the value, or `null` for a column the row does not have. */
    function Get(name: string): (v: Option<string>)
      ensures name !in values ==> v.None?
      ensures name in values ==> v == values[name]
    {
      if name in values then values[name] else None
    }

    /** `toValueList(columns)`: one entry per requested column, in the requested order. */
    function ToValueList(columns: seq<string>): (r: seq<Option<string>>)
      ensures |r| == |columns|
      ensures forall i | 0 <= i < |columns| :: r[i] == Get(columns[i])
    {
      if |columns| == 0 then [] else [Get(columns[0])] + ToValueList(columns[1..])
    }
  }

  datatype ParsedData = ParsedData(schema: DataSchema, rows: seq<DataRow>, totalRowCount: int, isSampled: bool)
  {
    /** `loadedRowCount`: the rows actually held, which may be fewer than `totalRowCount`. */
    function LoadedRowCount(): (n: nat)
      ensures n == |rows|
    {
      |rows|
    }
  }

  // ---------------------------------------------------------------------------
  // Properties of type inference
  // ---------------------------------------------------------------------------

  lemma BlankTrim(v: string)
    ensures IsBlank(Trim(v)) <==> IsBlank(v)
  {
    TrimIdempotent(v);
    TrimEmptyIffBlank(v);
    TrimEmptyIffBlank(Trim(v));
  }

  /** Missing, empty and whitespace-only values, and only those, are UNKNOWN. */
  lemma InferUnknownIffBlank(value: Option<string>)
    ensures Infer(value) == UNKNOWN <==> value.None? || IsBlank(value.value)
  {
  }

  /** Inference looks at the trimmed value only. */
  lemma InferIgnoresSurroundingWhitespace(v: string)
    ensures Infer(Some(v)) == Infer(Some(Trim(v)))
  {
    BlankTrim(v);
    TrimIdempotent(v);
  }

  /** The characters that equal `c`, ignoring case, for the letters of the boolean words. */
  lemma CaseVariants(x: char, c: char)
    requires c == 't' || c == 'f' || c == 'e'
    requires CharEqualsIgnoreCase(x, c)
    ensures x == c || x == AsciiUpperChar(c)
  {
  }

  /** A boolean word starts with `t`/`T` or `f`/`F` and ends with `e`/`E`. */
  lemma BoolWordEnds(t: string)
    requires IsBoolWord(t)
    ensures |t| >= 4
    ensures t[0] in "tTfF" && t[|t| - 1] in "eE"
  {
    if EqualsIgnoreCase(t, "true") {
      CaseVariants(t[0], 't');
      CaseVariants(t[3], 'e');
    } else {
      CaseVariants(t[0], 'f');
      CaseVariants(t[4], 'e');
    }
  }

  /** A boolean word is neither a Long nor a Double, so the boolean check shadows nothing. */
  lemma BoolWordIsNotNumeric(t: string)
    requires IsBoolWord(t)
    ensures !IsLongText(t) && !IsDoubleText(t)
  {
    BoolWordEnds(t);
    LetterStartIsNotNumber(t);
    assert StripControl(t) == t;
    assert t != "NaN" && t != "Infinity" by { assert t[0] != "NaN"[0] && t[0] != "Infinity"[0]; }
    assert !IsFloatSuffix(t[|t| - 1]);
  }

  /** A text opening with a letter other than a hexadecimal prefix is neither a Long nor
      a number. */
  lemma LetterStartIsNotNumber(t: string)
    requires |t| > 0 && t[0] in "tTfF"
    ensures !IsLongText(t) && !IsNumber(t)
  {
    assert !IsAsciiDigit(t[0]) && !IsSign(t[0]);
    assert !AllDigits(t[0..]) by { assert t[0..][0] == t[0]; }
    assert DigitRun(t) == 0;
  }

  /** A timestamp is not a boolean word, a Long or a Double. */
  lemma TimestampIsNotEarlierType(t: string)
    requires IsTimestamp(t)
    ensures !IsBoolWord(t) && !IsLongText(t) && !IsDoubleText(t)
  {
    assert IsAsciiDigit(t[0]) && IsAsciiDigit(t[1]);
    if IsBoolWord(t) {
      BoolWordEnds(t);
    }
    if FitsPattern(t, US_DATE_PATTERN) {
      assert AllDigits(t[..2]);
      DateLikeIsNotNumeric(t, 2);
    } else {
      assert AllDigits(t[..4]);
      DateLikeIsNotNumeric(t, 4);
    }
  }

  // The precedence chain, one result at a time, for a non-blank value `v`.

  /** BOOLEAN exactly for the boolean words. */
  lemma InferBoolean(v: string)
    requires !IsBlank(v)
    ensures Infer(Some(v)) == BOOLEAN <==> IsBoolWord(Trim(v))
  {
  }

  /** INTEGER exactly when the trimmed value is a Long. */
  lemma InferInteger(v: string)
    requires !IsBlank(v)
    ensures Infer(Some(v)) == INTEGER <==> IsLongText(Trim(v))
  {
    var t := Trim(v);
    if IsBoolWord(t) {
      BoolWordIsNotNumeric(t);
    }
  }

  /** DECIMAL exactly when the trimmed value is a Double but not a Long. */
  lemma InferDecimal(v: string)
    requires !IsBlank(v)
    ensures Infer(Some(v)) == DECIMAL <==> IsDoubleText(Trim(v)) && !IsLongText(Trim(v))
  {
    var t := Trim(v);
    if IsBoolWord(t) {
      BoolWordIsNotNumeric(t);
    }
  }

  /** TIMESTAMP exactly when the trimmed value matches a timestamp pattern. */
  lemma InferTimestamp(v: string)
    requires !IsBlank(v)
    ensures Infer(Some(v)) == TIMESTAMP <==> IsTimestamp(Trim(v))
  {
    var t := Trim(v);
    if IsTimestamp(t) {
      TimestampIsNotEarlierType(t);
    }
  }

  /** STRING for whatever no earlier check accepts. */
  lemma InferString(v: string)
    requires !IsBlank(v)
    ensures Infer(Some(v)) == STRING <==> !IsBoolWord(Trim(v)) && !IsDoubleText(Trim(v)) && !IsTimestamp(Trim(v))
  {
    var t := Trim(v);
    if IsLongText(t) {
      LongTextIsDoubleText(t);
    }
  }

  /** `0` and `1` are integers, not booleans. */
  lemma InferDigitIsInteger()
    ensures Infer(Some("1")) == INTEGER && Infer(Some("0")) == INTEGER
  {
    assert Trim("1") == "1" && Trim("0") == "0";
    assert IsLongText("1") by { assert DigitsValue("1") == 1; }
    assert IsLongText("0") by { assert DigitsValue("0") == 0; }
    InferInteger("1");
    InferInteger("0");
  }

  /** A calendar date is a TIMESTAMP. */
  lemma InferDateIsTimestamp()
    ensures Infer(Some("2024-01-15")) == TIMESTAMP
  {
    var d := "2024-01-15";
    assert Trim(d) == d;
    assert FitsPattern(d, DATE_PATTERN);
    InferTimestamp(d);
  }
}
