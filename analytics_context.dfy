/**
 * The context handed to the model: its budget constants, the sampling strategy chosen
 * from the size of the data, and the text the context contributes to a prompt.
 */
module Analytics {
  import opened Text

  /** The token budget and its parts: system prompt, schema, statistics, data sample,
      question and a reserve. */
  const TOTAL_TOKEN_BUDGET: int := 3000
  const SYSTEM_PROMPT_BUDGET: int := 200
  const SCHEMA_BUDGET: int := 100
  const STATISTICS_BUDGET: int := 300
  const DATA_SAMPLE_BUDGET: int := 2000
  const QUESTION_BUDGET: int := 100
  const BUFFER: int := 300

  /** The parts of the budget add up to the whole. */
  lemma BudgetPartsSum()
    ensures SYSTEM_PROMPT_BUDGET + SCHEMA_BUDGET + STATISTICS_BUDGET + DATA_SAMPLE_BUDGET
            + QUESTION_BUDGET + BUFFER == TOTAL_TOKEN_BUDGET
  {
  }

  /** `SamplingStrategy`: every row, a representative sample, or statistics with a
      minimal sample. */
  datatype SamplingStrategy = FULL_DATA | STATISTICAL | AGGREGATED

  /** `strategy.name` */
  function StrategyName(s: SamplingStrategy): string {
    match s
    case FULL_DATA => "FULL_DATA"
    case STATISTICAL => "STATISTICAL"
    case AGGREGATED => "AGGREGATED"
  }

  /** The position of a strategy in declaration order. */
  function Rank(s: SamplingStrategy): nat {
    match s
    case FULL_DATA => 0
    case STATISTICAL => 1
    case AGGREGATED => 2
  }

  /** `SamplingStrategy.forRowCount` */
  function ForRowCount(count: int): (s: SamplingStrategy)
    ensures s == FULL_DATA <==> count < 500
    ensures s == STATISTICAL <==> 500 <= count < 5000
    ensures s == AGGREGATED <==> 5000 <= count
  {
    if count < 500 then FULL_DATA
    else if count < 5000 then STATISTICAL
    else AGGREGATED
  }

  /** A larger data set never gets an earlier strategy. */
  lemma ForRowCountMonotone(a: int, b: int)
    requires a <= b
    ensures Rank(ForRowCount(a)) <= Rank(ForRowCount(b))
  {
  }

  /** `AnalyticsContext` */
  datatype AnalyticsContext = AnalyticsContext(
    systemPrompt: string,
    schemaDescription: string,
    statisticsSummary: string,
    dataSample: string,
    estimatedTokens: int)
  {
    /** `toPromptContext`: each section's heading, its block and a blank line between
        sections, all written with `appendLine`. */
    function ToPromptContext(): (text: string)
      ensures text == TerminatedLines(PromptLines(schemaDescription, statisticsSummary, dataSample))
    {
      PromptLinesText(schemaDescription, statisticsSummary, dataSample);
      "## Data Schema" + "\n" + schemaDescription + "\n" + "\n"
      + "## Statistics" + "\n" + statisticsSummary + "\n" + "\n"
      + "## Data Sample" + "\n" + dataSample + "\n"
    }
  }

  /** The eight `appendLine` arguments of `toPromptContext`. */
  function PromptLines(schema: string, statistics: string, sample: string): seq<string> {
    ["## Data Schema", schema, "", "## Statistics", statistics, "", "## Data Sample", sample]
  }

  lemma PromptLinesText(schema: string, statistics: string, sample: string)
    ensures TerminatedLines(PromptLines(schema, statistics, sample))
         == "## Data Schema" + "\n" + schema + "\n" + "\n"
            + "## Statistics" + "\n" + statistics + "\n" + "\n"
            + "## Data Sample" + "\n" + sample + "\n"
  {
    TerminatedOctet("## Data Schema", schema, "", "## Statistics", statistics, "", "## Data Sample", sample);
  }

  /** The prompt context is exactly the three blocks with their headings: its length is
      theirs plus the fixed text, it opens with the schema heading, the schema and the
      statistics heading, and it ends with the sample and a newline. */
  lemma PromptContextLayout(context: AnalyticsContext)
    ensures var text := context.ToPromptContext();
      && |text| == |context.schemaDescription| + |context.statisticsSummary| + |context.dataSample| + 49
      && StartsWith(text, "## Data Schema" + "\n" + context.schemaDescription + "\n" + "\n" + "## Statistics" + "\n")
      && text[|text| - |context.dataSample| - 1..] == context.dataSample + "\n"
  {
    var s, t, d := context.schemaDescription, context.statisticsSummary, context.dataSample;
    var front := ["## Data Schema", s, "", "## Statistics"];
    var back := [t, "", "## Data Sample", d];
    assert PromptLines(s, t, d) == front + back;
    TerminatedLinesConcat(front, back);
    TerminatedQuad("## Data Schema", s, "", "## Statistics");
    TerminatedQuad(t, "", "## Data Sample", d);
    var head := TerminatedLines(front);
    var before := t + "\n" + "" + "\n" + "## Data Sample" + "\n";
    ConcatAssoc(before, d, "\n");
    var text := context.ToPromptContext();
    assert text == head + (before + (d + "\n"));
    assert text[..|head|] == head;
    assert text[|head| + |before|..] == d + "\n";
  }

  /** Without line breaks in the blocks, none of the eight lines has one. */
  lemma PromptLinesUnbroken(schema: string, statistics: string, sample: string)
    requires NoBreaks(schema) && NoBreaks(statistics) && NoBreaks(sample)
    ensures AllNoBreaks(PromptLines(schema, statistics, sample))
  {
    var lines := PromptLines(schema, statistics, sample);
    assert NoBreaks(lines[0]) && NoBreaks(lines[2]) && NoBreaks(lines[3]) && NoBreaks(lines[6]);
  }

  /** The lines of the prompt context when each block is whole lines `S` followed by
      an unfinished line `s`: each heading, the block's lines, and the blank lines
      that `appendLine` of the block and of "" leave. */
  function BlockPromptLines(schemaLines: seq<string>, schemaLast: string,
                            statisticsLines: seq<string>, statisticsLast: string,
                            sampleLines: seq<string>, sampleLast: string): seq<string> {
    ["## Data Schema"] + schemaLines + [schemaLast, "", "## Statistics"]
    + statisticsLines + [statisticsLast, "", "## Data Sample"]
    + sampleLines + [sampleLast]
  }

  lemma PromptBlocksSplice(schemaLines: seq<string>, schemaLast: string,
                           statisticsLines: seq<string>, statisticsLast: string,
                           sampleLines: seq<string>, sampleLast: string)
    ensures TerminatedLines(PromptLines(TerminatedLines(schemaLines) + schemaLast,
                                        TerminatedLines(statisticsLines) + statisticsLast,
                                        TerminatedLines(sampleLines) + sampleLast))
         == TerminatedLines(BlockPromptLines(schemaLines, schemaLast, statisticsLines, statisticsLast, sampleLines, sampleLast))
  {
    var schema := TerminatedLines(schemaLines) + schemaLast;
    var statistics := TerminatedLines(statisticsLines) + statisticsLast;
    var sample := TerminatedLines(sampleLines) + sampleLast;
    var back0 := ["", "## Statistics", statistics, "", "## Data Sample", sample];
    assert PromptLines(schema, statistics, sample) == ["## Data Schema"] + [schema] + back0;
    SpliceBlock(["## Data Schema"], schemaLines, schemaLast, back0);
    var front1 := ["## Data Schema"] + schemaLines + [schemaLast, "", "## Statistics"];
    var back1 := ["", "## Data Sample", sample];
    assert ["## Data Schema"] + schemaLines + [schemaLast] + back0 == front1 + [statistics] + back1;
    SpliceBlock(front1, statisticsLines, statisticsLast, back1);
    var front2 := front1 + statisticsLines + [statisticsLast, "", "## Data Sample"];
    assert front1 + statisticsLines + [statisticsLast] + back1 == front2 + [sample] + [];
    SpliceBlock(front2, sampleLines, sampleLast, []);
    assert front2 + sampleLines + [sampleLast] + []
        == BlockPromptLines(schemaLines, schemaLast, statisticsLines, statisticsLast, sampleLines, sampleLast);
  }

  /** A prompt context whose blocks are whole lines and an unfinished last line, as
      every block the context builder writes or cuts is, splits back into the
      headings, the blocks' lines and the blank separators. */
  lemma PromptContextLines(context: AnalyticsContext, schemaLines: seq<string>, schemaLast: string,
                           statisticsLines: seq<string>, statisticsLast: string,
                           sampleLines: seq<string>, sampleLast: string)
    requires SplitsInto(context.schemaDescription, schemaLines, schemaLast)
    requires SplitsInto(context.statisticsSummary, statisticsLines, statisticsLast)
    requires SplitsInto(context.dataSample, sampleLines, sampleLast)
    ensures Lines(context.ToPromptContext())
         == BlockPromptLines(schemaLines, schemaLast, statisticsLines, statisticsLast, sampleLines, sampleLast) + [""]
  {
    PromptBlocksSplice(schemaLines, schemaLast, statisticsLines, statisticsLast, sampleLines, sampleLast);
    BlockPromptLinesUnbroken(schemaLines, schemaLast, statisticsLines, statisticsLast, sampleLines, sampleLast);
    LinesOfTerminated(BlockPromptLines(schemaLines, schemaLast, statisticsLines, statisticsLast, sampleLines, sampleLast));
  }

  lemma BlockPromptLinesUnbroken(schemaLines: seq<string>, schemaLast: string,
                                 statisticsLines: seq<string>, statisticsLast: string,
                                 sampleLines: seq<string>, sampleLast: string)
    requires AllNoBreaks(schemaLines) && NoBreaks(schemaLast)
    requires AllNoBreaks(statisticsLines) && NoBreaks(statisticsLast)
    requires AllNoBreaks(sampleLines) && NoBreaks(sampleLast)
    ensures AllNoBreaks(BlockPromptLines(schemaLines, schemaLast, statisticsLines, statisticsLast, sampleLines, sampleLast))
  {
    var h1, h2, h3 := ["## Data Schema"], [schemaLast, "", "## Statistics"], [statisticsLast, "", "## Data Sample"];
    assert AllNoBreaks(h1) && AllNoBreaks(h2) && AllNoBreaks(h3) && AllNoBreaks([sampleLast]) by {
      assert NoBreaks(h1[0]) && NoBreaks(h2[1]) && NoBreaks(h2[2]) && NoBreaks(h3[2]);
    }
    AllNoBreaksConcat(h1, schemaLines);
    AllNoBreaksConcat(h1 + schemaLines, h2);
    AllNoBreaksConcat(h1 + schemaLines + h2, statisticsLines);
    AllNoBreaksConcat(h1 + schemaLines + h2 + statisticsLines, h3);
    AllNoBreaksConcat(h1 + schemaLines + h2 + statisticsLines + h3, sampleLines);
    AllNoBreaksConcat(h1 + schemaLines + h2 + statisticsLines + h3 + sampleLines, [sampleLast]);
  }
}
