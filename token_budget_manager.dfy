/**
 * Token budget arithmetic: the estimate of four characters per token, the character
 * limits of the budget's parts, truncation to a token budget, and the rows that fit.
 * Kotlin `Int` arithmetic wraps modulo 2^32 and `Double.toInt` saturates; both are
 * written out.
 */
module TokenBudget {
  import opened Options
  import opened Text
  import Analytics

  const INT_MIN: int := -0x8000_0000
  const INT_MAX: int := 0x7fff_ffff
  const MODULUS: int := 0x1_0000_0000

  predicate IsInt(x: int) {
    INT_MIN <= x <= INT_MAX
  }

  /** The Kotlin `Int` holding the low 32 bits of `x`. */
  function Wrap(x: int): (r: int)
    ensures IsInt(r)
  {
    (x - INT_MIN) % MODULUS + INT_MIN
  }

  /** An integer is its wrapped value plus a multiple of 2^32. */
  lemma WrapQuotient(x: int) returns (q: int)
    ensures x == Wrap(x) + q * MODULUS
  {
    q := (x - INT_MIN) / MODULUS;
  }

  /** The wrapped value is the only `Int` that differs from `x` by a multiple of 2^32. */
  lemma WrapUnique(x: int, r: int, q: int)
    requires IsInt(r) && x == r + q * MODULUS
    ensures Wrap(x) == r
  {
    var p := WrapQuotient(x);
    var d := q - p;
    assert Wrap(x) - r == d * MODULUS;
  }

  /** Wrapping an intermediate result does not change the wrapped sum. */
  lemma WrapAdd(x: int, y: int)
    ensures Wrap(Wrap(x) + y) == Wrap(x + y)
  {
    var p := WrapQuotient(x);
    var q := WrapQuotient(x + y);
    WrapUnique(Wrap(x) + y, Wrap(x + y), q - p);
  }

  /** Wrapping the subtrahend does not change the wrapped difference. */
  lemma WrapSubtract(c: int, x: int)
    ensures Wrap(c - Wrap(x)) == Wrap(c - x)
  {
    var p := WrapQuotient(x);
    var q := WrapQuotient(c - x);
    WrapUnique(c - Wrap(x), Wrap(c - x), q + p);
  }

  /** An `Int` wraps to itself. */
  lemma WrapInt(x: int)
    requires IsInt(x)
    ensures Wrap(x) == x
  {
    WrapUnique(x, x, 0);
  }

  /** `Double.toInt` of a whole number: values beyond `Int` saturate at its bounds. */
  function Saturate(x: int): (r: int)
    ensures IsInt(r)
    ensures IsInt(x) ==> r == x
    ensures x < INT_MIN ==> r == INT_MIN
    ensures x > INT_MAX ==> r == INT_MAX
  {
    if x < INT_MIN then INT_MIN else if x > INT_MAX then INT_MAX else x
  }

  /** `estimateTokens`: the length divided by four, rounded down. */
  function EstimateTokens(text: string): (tokens: int)
    ensures 0 <= tokens
    ensures 4 * tokens <= |text| < 4 * tokens + 4
  {
    |text| / 4
  }

  /** `(tokens * CHARS_PER_TOKEN).toInt()` for an `Int` token count. */
  function CharLimit(tokens: int): (chars: int)
    requires IsInt(tokens)
    ensures IsInt(chars)
  {
    Saturate(4 * tokens)
  }

  /** The character limit is exactly four per token unless the product leaves `Int`. */
  lemma CharLimitExact(tokens: int)
    requires -0x2000_0000 <= tokens < 0x2000_0000
    ensures CharLimit(tokens) == 4 * tokens
  {
  }

  /** `getSchemaCharLimit` */
  function SchemaCharLimit(): (chars: int)
    ensures chars == 4 * Analytics.SCHEMA_BUDGET
  {
    CharLimit(Analytics.SCHEMA_BUDGET)
  }

  /** `getStatisticsCharLimit` */
  function StatisticsCharLimit(): (chars: int)
    ensures chars == 4 * Analytics.STATISTICS_BUDGET
  {
    CharLimit(Analytics.STATISTICS_BUDGET)
  }

  /** `getDataSampleCharLimit` */
  function DataSampleCharLimit(): (chars: int)
    ensures chars == 4 * Analytics.DATA_SAMPLE_BUDGET
  {
    CharLimit(Analytics.DATA_SAMPLE_BUDGET)
  }

  /** `truncateToTokens`: the text itself when it fits the character limit, otherwise
      its first `maxChars - 3` characters and an ellipsis. `String.take` of a negative
      count throws, which is the failure, with that exception's message. */
  function TruncateToTokens(text: string, maxTokens: int): Result<string>
    requires IsInt(maxTokens)
  {
    var maxChars := CharLimit(maxTokens);
    if |text| <= maxChars then Ok(text)
    else
      var keep := Wrap(maxChars - 3);
      if keep < 0 then Failure(NegativeCharTakeMessage(keep))
      else Ok(Take(text, keep) + "...")
  }

  /** With a budget of at least one token, truncation succeeds and its result fits the
      character limit: the text unchanged when it already fits, otherwise a prefix
      shortened to leave room for the ellipsis. */
  lemma TruncateFits(text: string, maxTokens: int)
    requires IsInt(maxTokens) && 1 <= maxTokens
    ensures var r := TruncateToTokens(text, maxTokens);
      var maxChars := CharLimit(maxTokens);
      && r.Ok?
      && |r.value| <= maxChars
      && (|text| <= maxChars ==> r.value == text)
      && (|text| > maxChars ==> r.value == text[..maxChars - 3] + "...")
  {
    var maxChars := CharLimit(maxTokens);
    if |text| > maxChars {
      WrapInt(maxChars - 3);
    }
  }

  /** Truncation with an ordinary budget: exactly four characters per token. */
  lemma TruncateExact(text: string, maxTokens: int)
    requires 1 <= maxTokens < 0x2000_0000
    ensures var r := TruncateToTokens(text, maxTokens);
      && r.Ok?
      && |r.value| <= 4 * maxTokens
      && (|text| <= 4 * maxTokens ==> r.value == text)
      && (|text| > 4 * maxTokens ==> r.value == text[..4 * maxTokens - 3] + "...")
  {
    CharLimitExact(maxTokens);
    TruncateFits(text, maxTokens);
  }

  /** Truncating twice to the same positive budget changes nothing the second time. */
  lemma TruncateIdempotent(text: string, maxTokens: int)
    requires IsInt(maxTokens) && 1 <= maxTokens
    ensures var r := TruncateToTokens(text, maxTokens);
      r.Ok? && TruncateToTokens(r.value, maxTokens) == r
  {
    TruncateFits(text, maxTokens);
    var r := TruncateToTokens(text, maxTokens);
    TruncateFits(r.value, maxTokens);
  }

  /** Truncation throws exactly when the text is too long and `maxChars - 3` is a
      negative `Int`: a budget of zero or fewer tokens, but not one so negative that the
      subtraction wraps around. */
  lemma TruncateFailure(text: string, maxTokens: int)
    requires IsInt(maxTokens)
    ensures var maxChars := CharLimit(maxTokens);
      TruncateToTokens(text, maxTokens).Failure?
      <==> |text| > maxChars && INT_MIN + 3 <= maxChars < 3
    ensures var r := TruncateToTokens(text, maxTokens);
      r.Failure? ==> r.message == NegativeCharTakeMessage(Wrap(CharLimit(maxTokens) - 3))
  {
    var maxChars := CharLimit(maxTokens);
    if INT_MIN + 3 <= maxChars {
      WrapInt(maxChars - 3);
    } else {
      WrapUnique(maxChars - 3, maxChars - 3 + MODULUS, -1);
    }
  }

  /** With a budget so negative that its character limit is below `Int.MIN_VALUE + 3`,
      `maxChars - 3` wraps to a large count and the whole text comes back with an
      ellipsis appended. */
  lemma TruncateWrapsAround(text: string, maxTokens: int)
    requires IsInt(maxTokens) && maxTokens <= -0x2000_0000
    requires |text| <= INT_MAX - 2
    ensures TruncateToTokens(text, maxTokens) == Ok(text + "...")
  {
    var maxChars := CharLimit(maxTokens);
    assert maxChars == INT_MIN;
    WrapUnique(maxChars - 3, maxChars - 3 + MODULUS, -1);
  }

  /** `calculateRemainingTokens`, with each `Int` addition and subtraction wrapping. */
  function RemainingTokens(schemaTokens: int, statisticsTokens: int, dataSampleTokens: int, questionTokens: int): int
    requires IsInt(schemaTokens) && IsInt(statisticsTokens) && IsInt(dataSampleTokens) && IsInt(questionTokens)
  {
    var used := Wrap(Wrap(Wrap(Wrap(Analytics.SYSTEM_PROMPT_BUDGET + schemaTokens) + statisticsTokens)
      + dataSampleTokens) + questionTokens);
    Wrap(Wrap(Analytics.TOTAL_TOKEN_BUDGET - used) - Analytics.BUFFER)
  }

  /** The remaining tokens are the total budget less the system prompt, the four parts
      and the reserve, taken modulo 2^32; exactly that difference when it is an `Int`.
      The parts at their budgets leave nothing over. */
  lemma RemainingTokensSpec(a: int, b: int, c: int, d: int)
    requires IsInt(a) && IsInt(b) && IsInt(c) && IsInt(d)
    ensures var rest := Analytics.TOTAL_TOKEN_BUDGET - Analytics.SYSTEM_PROMPT_BUDGET - Analytics.BUFFER;
      && RemainingTokens(a, b, c, d) == Wrap(rest - (a + b + c + d))
      && (IsInt(rest - (a + b + c + d)) ==> RemainingTokens(a, b, c, d) == rest - (a + b + c + d))
  {
    var p := Analytics.SYSTEM_PROMPT_BUDGET;
    var total := Analytics.TOTAL_TOKEN_BUDGET;
    WrapAdd(p + a, b);
    WrapAdd(p + a + b, c);
    WrapAdd(p + a + b + c, d);
    var used := p + a + b + c + d;
    WrapSubtract(total, used);
    WrapAdd(total - used, -Analytics.BUFFER);
    if IsInt(total - used - Analytics.BUFFER) {
      WrapInt(total - used - Analytics.BUFFER);
    }
  }

  /** The section budgets of the context leave no tokens over. */
  lemma RemainingAtBudgets()
    ensures RemainingTokens(Analytics.SCHEMA_BUDGET, Analytics.STATISTICS_BUDGET,
      Analytics.DATA_SAMPLE_BUDGET, Analytics.QUESTION_BUDGET) == 0
  {
    RemainingTokensSpec(Analytics.SCHEMA_BUDGET, Analytics.STATISTICS_BUDGET,
      Analytics.DATA_SAMPLE_BUDGET, Analytics.QUESTION_BUDGET);
  }

  /** `fitsWithinBudget` */
  predicate FitsWithinBudget(totalTokens: int) {
    totalTokens <= Analytics.TOTAL_TOKEN_BUDGET
  }

  /** Kotlin `Int` division of a value by a positive divisor: rounded toward zero. */
  function DivTruncated(a: int, b: int): int
    requires b > 0
  {
    if a >= 0 then a / b else -((-a) / b)
  }

  /** `calculateMaxRows`: how many rows of the average size fit in the characters of the
      available tokens; none for a non-positive row size. */
  function MaxRows(avgRowCharacters: int, availableTokens: int): int
    requires IsInt(avgRowCharacters) && IsInt(availableTokens)
  {
    if avgRowCharacters <= 0 then 0
    else DivTruncated(CharLimit(availableTokens), avgRowCharacters)
  }

  /** With a non-negative budget the result is the largest row count whose characters
      fit; a negative budget allows no rows (the count is zero or negative), and a
      non-positive row size gives zero. */
  lemma MaxRowsSpec(avg: int, available: int)
    requires IsInt(avg) && IsInt(available)
    ensures var rows := MaxRows(avg, available);
      var chars := CharLimit(available);
      && (avg <= 0 ==> rows == 0)
      && (avg > 0 && available >= 0 ==> 0 <= rows && rows * avg <= chars < (rows + 1) * avg)
      && (avg > 0 && available < 0 ==> rows <= 0 && chars <= rows * avg)
  {
    var chars := CharLimit(available);
    if avg > 0 {
      if available >= 0 {
        DivBounds(chars, avg);
      } else {
        DivBounds(-chars, avg);
      }
    }
  }

  /** Euclidean division of a non-negative value by a positive divisor. */
  lemma DivBounds(a: int, b: int)
    requires a >= 0 && b > 0
    ensures 0 <= a / b && (a / b) * b <= a < (a / b + 1) * b
  {
    var q, m := a / b, a % b;
    assert a == q * b + m;
    assert (q + 1) * b == q * b + b;
  }
}
