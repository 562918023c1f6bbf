/**
 * The events a parser's flow emits: progress reports, then exactly one final
 * success or error. A flow is modelled as the finite list of what it emits.
 */
module ParseEvents {
  import opened Options
  import opened ParsedData
  import Text

  /** `ParseResult`; the `message` of a progress report is `note` here, and the `cause`
      of an error is not modelled. */
  datatype ParseResult =
    | Progress(parsedRows: int, totalRows: Option<int>, note: Option<string>)
    | Success(data: ParsedData)
    | Error(message: string)

  predicate IsTerminal(e: ParseResult) {
    e.Success? || e.Error?
  }

  /** Progress reports only, then one success or error as the last event. */
  predicate WellFormed(events: seq<ParseResult>) {
    |events| > 0 && IsTerminal(events[|events| - 1])
    && forall i | 0 <= i < |events| - 1 :: events[i].Progress?
  }

  /** The reports emitted while rows are loaded one by one: after every 100th row,
      `Progress(loaded, total, null)`. */
  function RowProgress(n: nat, total: int): (r: seq<ParseResult>)
    ensures forall i | 0 <= i < |r| :: r[i].Progress?
  {
    if n == 0 then []
    else RowProgress(n - 1, total) + (if n % 100 == 0 then [Progress(n, Some(total), None)] else [])
  }

  /** Exactly one report per full hundred rows, the k-th reporting 100·k rows. */
  lemma {:induction false} RowProgressShape(n: nat, total: int)
    ensures |RowProgress(n, total)| == n / 100
    ensures forall k | 0 <= k < n / 100 :: RowProgress(n, total)[k] == Progress(100 * (k + 1), Some(total), None)
  {
    if n > 0 {
      RowProgressShape(n - 1, total);
    }
  }

  /** Reports followed by a terminal event form a well-formed flow. */
  lemma ThenTerminal(reports: seq<ParseResult>, last: ParseResult)
    requires forall i | 0 <= i < |reports| :: reports[i].Progress?
    requires IsTerminal(last)
    ensures WellFormed(reports + [last])
  {
    assert forall i | 0 <= i < |reports| :: (reports + [last])[i] == reports[i];
  }

  /** A report in front of a well-formed flow keeps it well-formed. */
  lemma ReportThen(e: ParseResult, events: seq<ParseResult>)
    requires e.Progress? && WellFormed(events)
    ensures WellFormed([e] + events)
  {
    assert forall i | 1 <= i < |events| + 1 :: ([e] + events)[i] == events[i - 1];
  }

  /** The last event after a prefix is the last event of what follows it. */
  lemma LastOfConcat<T>(prefix: seq<T>, events: seq<T>)
    requires |events| > 0
    ensures |prefix + events| == |prefix| + |events|
    ensures (prefix + events)[|prefix + events| - 1] == events[|events| - 1]
  {
  }

  /** `minOf`, as the parsers bound the rows to load. */
  function Min(a: int, b: int): int {
    if a <= b then a else b
  }

  /** The message of Kotlin's list `take(n)` and `takeLast(n)` for a negative count;
      `String.take` words it differently (`Text.NegativeCharTakeMessage`). */
  function NegativeTakeMessage(n: int): string {
    "Requested element count " + Text.IntToString(n) + " is less than zero."
  }
}
