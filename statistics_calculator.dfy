/**
 * `StatisticsCalculator`: one statistics record per schema column, computed from the
 * loaded rows. Numeric columns keep the values that parse as doubles; categorical
 * columns count their values and keep the ten most frequent (a stable sort, so ties
 * stay in order of first occurrence); text columns record value lengths.
 */
module StatisticsCalculator {
  import opened Options
  import opened Text
  import opened Votes
  import opened NumberText
  import opened ParsedData
  import opened Statistics

  /** Up to this many distinct values a text column is categorical. */
  const CATEGORICAL_THRESHOLD: nat := 20

  /** How many (value, count) pairs a categorical column keeps. */
  const TOP_VALUES: nat := 10

  // ---------------------------------------------------------------------------
  // Present values
  // ---------------------------------------------------------------------------

  /** A value that is present and not blank. */
  predicate IsFilled(v: Option<string>) {
    v.Some? && !IsBlank(v.value)
  }

  /** `values.filterNotNull().filter { it.isNotBlank() }` */
  function NonNullValues(values: seq<Option<string>>): (r: seq<string>)
    ensures |r| <= |values|
    ensures forall i | 0 <= i < |r| :: !IsBlank(r[i])
  {
    if |values| == 0 then []
    else
      var n := |values| - 1;
      NonNullValues(values[..n]) + (if IsFilled(values[n]) then [values[n].value] else [])
  }

  /** The number of values that are missing or blank. */
  function MissingCount(values: seq<Option<string>>): nat {
    if |values| == 0 then 0
    else MissingCount(values[..|values| - 1]) + (if IsFilled(values[|values| - 1]) then 0 else 1)
  }

  /** The values that `toDoubleOrNull` accepts, in order. */
  function Numbers(values: seq<string>): (r: seq<string>)
    ensures |r| <= |values|
  {
    if |values| == 0 then []
    else
      var n := |values| - 1;
      Numbers(values[..n]) + (if IsDoubleText(values[n]) then [values[n]] else [])
  }

  // ---------------------------------------------------------------------------
  // Counting and the stable descending sort
  // ---------------------------------------------------------------------------

  /** `values.groupingBy { it }.eachCount().entries`: each distinct value with its
      count, in order of first occurrence. */
  function ValueCounts(values: seq<string>): (r: seq<(string, int)>)
    ensures |r| == |Distinct(values)|
    ensures forall i | 0 <= i < |r| :: r[i] == (Distinct(values)[i], Count(values, Distinct(values)[i]))
  {
    var d := Distinct(values);
    seq(|d|, i requires 0 <= i < |d| => (d[i], Count(values, d[i])))
  }

  /** Non-increasing counts. */
  predicate Descending<K>(s: seq<(K, int)>) {
    forall i, j | 0 <= i < j < |s| :: s[i].1 >= s[j].1
  }

  /** Inserts `x` after every element whose count is at least its own. */
  function InsertDesc<K>(x: (K, int), sorted: seq<(K, int)>): (r: seq<(K, int)>)
    ensures |r| == |sorted| + 1
  {
    if |sorted| == 0 then [x]
    else if sorted[0].1 >= x.1 then [sorted[0]] + InsertDesc(x, sorted[1..])
    else [x] + sorted
  }

  /** Inserting adds `x` and loses nothing. */
  lemma {:induction false} InsertDescPermutes<K>(x: (K, int), sorted: seq<(K, int)>)
    ensures multiset(InsertDesc(x, sorted)) == multiset(sorted) + multiset{x}
  {
    if |sorted| > 0 && sorted[0].1 >= x.1 {
      InsertDescPermutes(x, sorted[1..]);
      assert sorted == [sorted[0]] + sorted[1..];
    }
  }

  /** `sortedByDescending { it.value }` (a stable sort): insertion of each element,
      from the first to the last. */
  function SortDesc<K>(s: seq<(K, int)>): (r: seq<(K, int)>)
    ensures |r| == |s|
  {
    if |s| == 0 then []
    else InsertDesc(s[|s| - 1], SortDesc(s[..|s| - 1]))
  }

  /** The sort is a permutation. */
  lemma {:induction false} SortDescPermutes<K>(s: seq<(K, int)>)
    ensures multiset(SortDesc(s)) == multiset(s)
  {
    if |s| > 0 {
      var n := |s| - 1;
      SortDescPermutes(s[..n]);
      InsertDescPermutes(s[n], SortDesc(s[..n]));
      assert s == s[..n] + [s[n]];
    }
  }

  /** The elements with count `c`, in order. */
  function WithCount<K>(s: seq<(K, int)>, c: int): seq<(K, int)> {
    if |s| == 0 then []
    else (if s[0].1 == c then [s[0]] else []) + WithCount(s[1..], c)
  }

  lemma {:induction false} WithCountConcat<K>(a: seq<(K, int)>, b: seq<(K, int)>, c: int)
    ensures WithCount(a + b, c) == WithCount(a, c) + WithCount(b, c)
  {
    if |a| > 0 {
      assert (a + b)[1..] == a[1..] + b;
      WithCountConcat(a[1..], b, c);
      ConcatAssoc(if a[0].1 == c then [a[0]] else [], WithCount(a[1..], c), WithCount(b, c));
    } else {
      assert a + b == b;
    }
  }

  lemma {:induction false} WithCountNone<K>(s: seq<(K, int)>, c: int)
    requires forall i | 0 <= i < |s| :: s[i].1 != c
    ensures WithCount(s, c) == []
  {
    if |s| > 0 {
      WithCountNone(s[1..], c);
    }
  }

  /** Inserting below a bound keeps every count below it. */
  lemma {:induction false} InsertDescBounded<K>(x: (K, int), sorted: seq<(K, int)>, bound: int)
    requires x.1 <= bound && forall i | 0 <= i < |sorted| :: sorted[i].1 <= bound
    ensures forall i | 0 <= i < |sorted| + 1 :: InsertDesc(x, sorted)[i].1 <= bound
  {
    if |sorted| > 0 && sorted[0].1 >= x.1 {
      InsertDescBounded(x, sorted[1..], bound);
    }
  }

  lemma {:induction false} InsertDescOrdered<K>(x: (K, int), sorted: seq<(K, int)>)
    requires Descending(sorted)
    ensures Descending(InsertDesc(x, sorted))
  {
    var r := InsertDesc(x, sorted);
    if |sorted| > 0 && sorted[0].1 >= x.1 {
      var rest := InsertDesc(x, sorted[1..]);
      InsertDescOrdered(x, sorted[1..]);
      InsertDescBounded(x, sorted[1..], sorted[0].1);
      assert r == [sorted[0]] + rest;
      forall i, j | 0 <= i < j < |r| ensures r[i].1 >= r[j].1 {
        assert r[j] == rest[j - 1];
        if i > 0 { assert r[i] == rest[i - 1]; }
      }
    } else if |sorted| > 0 {
      assert r == [x] + sorted;
      forall i, j | 0 <= i < j < |r| ensures r[i].1 >= r[j].1 {
        assert r[j] == sorted[j - 1];
        if i > 0 { assert r[i] == sorted[i - 1]; }
      }
    }
  }

  /** Inserting `x` adds it after the elements of its own count. */
  lemma {:induction false} InsertDescStable<K>(x: (K, int), sorted: seq<(K, int)>, c: int)
    requires Descending(sorted)
    ensures WithCount(InsertDesc(x, sorted), c) == WithCount(sorted, c) + (if x.1 == c then [x] else [])
  {
    var tail := if x.1 == c then [x] else [];
    if |sorted| == 0 {
      WithCountSingle(x, c);
    } else if sorted[0].1 >= x.1 {
      var head := if sorted[0].1 == c then [sorted[0]] else [];
      var rest := InsertDesc(x, sorted[1..]);
      assert ([sorted[0]] + rest)[1..] == rest;
      InsertDescStable(x, sorted[1..], c);
      ConcatAssoc(head, WithCount(sorted[1..], c), tail);
    } else {
      assert ([x] + sorted)[1..] == sorted;
      if x.1 == c {
        WithCountNone(sorted, c);
      }
    }
  }

  /** The sort orders by count. */
  lemma {:induction false} SortDescOrdered<K>(s: seq<(K, int)>)
    ensures Descending(SortDesc(s))
  {
    if |s| > 0 {
      var n := |s| - 1;
      SortDescOrdered(s[..n]);
      InsertDescOrdered(s[n], SortDesc(s[..n]));
    }
  }

  /** The sort keeps the order of equal counts: for every count, the elements having it
      come in their original order. */
  lemma {:induction false} SortDescStable<K>(s: seq<(K, int)>, c: int)
    ensures WithCount(SortDesc(s), c) == WithCount(s, c)
  {
    if |s| > 0 {
      var n := |s| - 1;
      var front, last := s[..n], s[n];
      SortDescStable(front, c);
      SortDescOrdered(front);
      InsertDescStable(last, SortDesc(front), c);
      assert s == front + [last];
      WithCountConcat(front, [last], c);
      WithCountSingle(last, c);
      var tail := if last.1 == c then [last] else [];
      calc {
        WithCount(SortDesc(s), c);
        WithCount(InsertDesc(last, SortDesc(front)), c);
        WithCount(SortDesc(front), c) + tail;
        WithCount(front, c) + tail;
        WithCount(front + [last], c);
      }
    }
  }

  lemma WithCountSingle<K>(x: (K, int), c: int)
    ensures WithCount([x], c) == if x.1 == c then [x] else []
  {
    assert WithCount([x], c) == (if x.1 == c then [x] else []) + WithCount([x][1..], c);
  }

  /** `valueCounts.entries.sortedByDescending { it.value }.take(10)` */
  function TopValues(values: seq<string>): seq<(string, int)> {
    Take(SortDesc(ValueCounts(values)), TOP_VALUES)
  }

  // ---------------------------------------------------------------------------
  // Lengths
  // ---------------------------------------------------------------------------

  function SumLengths(values: seq<string>): nat {
    if |values| == 0 then 0 else SumLengths(values[..|values| - 1]) + |values[|values| - 1]|
  }

  /** `minOrNull() ?: 0` over the lengths. */
  function MinLength(values: seq<string>): nat {
    if |values| == 0 then 0
    else if |values| == 1 then |values[0]|
    else
      var m := MinLength(values[..|values| - 1]);
      if |values[|values| - 1]| < m then |values[|values| - 1]| else m
  }

  /** `maxOrNull() ?: 0` over the lengths. */
  function MaxLength(values: seq<string>): nat {
    if |values| == 0 then 0
    else
      var m := MaxLength(values[..|values| - 1]);
      if |values[|values| - 1]| > m then |values[|values| - 1]| else m
  }

  /** `map { it.length }.average()`: None (NaN) without values. */
  function AverageLength(values: seq<string>): Option<real> {
    if |values| == 0 then None else Some(SumLengths(values) as real / |values| as real)
  }

  // ---------------------------------------------------------------------------
  // The three kinds of statistics
  // ---------------------------------------------------------------------------

  /** `calculateNumericStats`: the values that parse, or text statistics when none does. */
  function NumericStats(name: string, columnType: ColumnType, values: seq<string>, nullCount: int): (r: ColumnStatistics)
    ensures r.name == name && r.columnType == columnType && r.nullCount == nullCount
    ensures r.NumericColumnStats? ==> r.nonNullCount == |Numbers(values)| <= |values|
    ensures !r.NumericColumnStats? ==> r.TextColumnStats? && r.nonNullCount == |values|
  {
    var numbers := Numbers(values);
    if |numbers| == 0 then
      TextColumnStats(name, columnType, |values|, nullCount, AverageLength(values), MinLength(values), MaxLength(values))
    else
      NumericColumnStats(name, columnType, |numbers|, nullCount, numbers)
  }

  /** `calculateCategoricalStats` */
  function CategoricalStats(name: string, columnType: ColumnType, values: seq<string>, nullCount: int): (r: ColumnStatistics)
    ensures r.CategoricalColumnStats?
    ensures r.name == name && r.columnType == columnType && r.nullCount == nullCount && r.nonNullCount == |values|
  {
    CategoricalColumnStats(name, columnType, |values|, nullCount, |ValueCounts(values)|, TopValues(values))
  }

  /** `calculateTextStats`: an average length of 0 without values. */
  function TextStats(name: string, columnType: ColumnType, values: seq<string>, nullCount: int): (r: ColumnStatistics)
    ensures r.TextColumnStats?
    ensures r.name == name && r.columnType == columnType && r.nullCount == nullCount && r.nonNullCount == |values|
  {
    var avg := if |values| > 0 then AverageLength(values) else Some(0.0);
    TextColumnStats(name, columnType, |values|, nullCount, avg, MinLength(values), MaxLength(values))
  }

  /** Whether a text-like column is categorical: few distinct values, or at most one
      distinct value per two values. */
  predicate IsCategorical(nonNull: seq<string>) {
    var unique := |Distinct(nonNull)|;
    unique <= CATEGORICAL_THRESHOLD || unique <= |nonNull| / 2
  }

  /** `calculateColumnStats` */
  function ColumnStats(name: string, columnType: ColumnType, values: seq<Option<string>>): (r: ColumnStatistics)
    ensures r.name == name && r.columnType == columnType
    ensures r.nullCount == |values| - |NonNullValues(values)|
    ensures r.NumericColumnStats? ==> r.nonNullCount <= |NonNullValues(values)|
    ensures !r.NumericColumnStats? ==> r.nonNullCount == |NonNullValues(values)|
  {
    var nonNull := NonNullValues(values);
    var nullCount := |values| - |nonNull|;
    match columnType
    case INTEGER => NumericStats(name, columnType, nonNull, nullCount)
    case DECIMAL => NumericStats(name, columnType, nonNull, nullCount)
    case BOOLEAN => CategoricalStats(name, columnType, nonNull, nullCount)
    case _ =>
      if IsCategorical(nonNull) then CategoricalStats(name, columnType, nonNull, nullCount)
      else TextStats(name, columnType, nonNull, nullCount)
  }

  /** `data.rows.map { it[name] }` */
  function ColumnValues(rows: seq<DataRow>, name: string): (r: seq<Option<string>>)
    ensures |r| == |rows|
    ensures forall i | 0 <= i < |rows| :: r[i] == rows[i].Get(name)
  {
    seq(|rows|, i requires 0 <= i < |rows| => rows[i].Get(name))
  }

  /** `calculate` */
  function Calculate(data: ParsedData): DataStatistics {
    var columns := data.schema.columns;
    DataStatistics(
      data.totalRowCount,
      seq(|columns|, i requires 0 <= i < |columns| =>
        ColumnStats(columns[i].name, columns[i].columnType, ColumnValues(data.rows, columns[i].name))))
  }

  // ---------------------------------------------------------------------------
  // Properties
  // ---------------------------------------------------------------------------

  /** The non-null values are exactly the present, non-blank ones; the null count is
      the number of missing or blank values. */
  lemma {:induction false} NonNullSpec(values: seq<Option<string>>, x: string)
    ensures x in NonNullValues(values) <==> Some(x) in values && !IsBlank(x)
  {
    if |values| > 0 {
      var n := |values| - 1;
      NonNullSpec(values[..n], x);
      assert values == values[..n] + [values[n]];
    }
  }

  /** What `filterNotNull` drops is what the null count counts. */
  lemma {:induction false} NonNullCount(values: seq<Option<string>>)
    ensures |values| - |NonNullValues(values)| == MissingCount(values)
  {
    if |values| > 0 {
      NonNullCount(values[..|values| - 1]);
    }
  }

  /** The numbers are exactly the values `toDoubleOrNull` accepts. */
  lemma {:induction false} NumbersSpec(values: seq<string>, x: string)
    ensures x in Numbers(values) <==> x in values && IsDoubleText(x)
  {
    if |values| > 0 {
      var n := |values| - 1;
      NumbersSpec(values[..n], x);
      assert values == values[..n] + [values[n]];
    }
  }

  /** The shortest and longest lengths: both 0 without values, otherwise lengths that
      occur and bound every value's length. */
  lemma {:induction false} LengthBounds(values: seq<string>)
    ensures MinLength(values) <= MaxLength(values)
    ensures |values| == 0 ==> MinLength(values) == 0 && MaxLength(values) == 0
    ensures |values| > 0 ==>
      && (exists i | 0 <= i < |values| :: |values[i]| == MinLength(values))
      && (exists i | 0 <= i < |values| :: |values[i]| == MaxLength(values))
      && forall i | 0 <= i < |values| :: MinLength(values) <= |values[i]| <= MaxLength(values)
  {
    if |values| > 1 {
      var n := |values| - 1;
      LengthBounds(values[..n]);
      assert forall i | 0 <= i < n :: values[..n][i] == values[i];
      var i :| 0 <= i < n && |values[..n][i]| == MinLength(values[..n]);
      var j :| 0 <= j < n && |values[..n][j]| == MaxLength(values[..n]);
      if |values[n]| < MinLength(values[..n]) {
        assert |values[n]| == MinLength(values);
      } else {
        assert |values[i]| == MinLength(values);
      }
      if |values[n]| > MaxLength(values[..n]) {
        assert |values[n]| == MaxLength(values);
      } else {
        assert |values[j]| == MaxLength(values);
      }
    } else if |values| == 1 {
      assert |values[0]| == MinLength(values) == MaxLength(values);
    }
  }

  lemma {:induction false} SumBetween(values: seq<string>, lo: int, hi: int)
    requires forall i | 0 <= i < |values| :: lo <= |values[i]| <= hi
    ensures |values| * lo <= SumLengths(values) <= |values| * hi
  {
    if |values| > 0 {
      var n := |values| - 1;
      assert forall i | 0 <= i < n :: values[..n][i] == values[i];
      SumBetween(values[..n], lo, hi);
      assert |values| * lo == n * lo + lo;
      assert |values| * hi == n * hi + hi;
    }
  }

  /** The average length lies between the shortest and the longest. */
  lemma AverageBetween(values: seq<string>)
    requires |values| > 0
    ensures AverageLength(values).Some?
    ensures MinLength(values) as real <= AverageLength(values).value <= MaxLength(values) as real
  {
    LengthBounds(values);
    var lo, hi := MinLength(values), MaxLength(values);
    SumBetween(values, lo, hi);
    AverageOf(|values|, SumLengths(values), lo, hi);
  }

  lemma AverageOf(n: nat, sum: nat, lo: nat, hi: nat)
    requires n > 0 && n * lo <= sum <= n * hi
    ensures lo as real <= sum as real / n as real <= hi as real
  {
    RealOfProduct(n, lo);
    RealOfProduct(n, hi);
    DivBounds(sum as real, n as real, lo as real, hi as real);
  }

  lemma RealOfProduct(a: nat, b: nat)
    ensures (a * b) as real == a as real * b as real
  {
    if a > 0 {
      RealOfProduct(a - 1, b);
      assert a * b == (a - 1) * b + b;
    }
  }

  lemma DivBounds(sum: real, n: real, lo: real, hi: real)
    requires n > 0.0 && n * lo <= sum <= n * hi
    ensures lo <= sum / n <= hi
  {
  }

  /** Every statistics record counts the missing or blank values as null; the counts
      add up to the loaded rows, except that a numeric record counts only the values
      that parse. */
  lemma ColumnStatsCounts(name: string, columnType: ColumnType, values: seq<Option<string>>)
    ensures var stats := ColumnStats(name, columnType, values);
      && stats.nullCount == MissingCount(values)
      && (stats.NumericColumnStats? ==> stats.nonNullCount + stats.nullCount <= |values|)
      && (!stats.NumericColumnStats? ==> stats.nonNullCount + stats.nullCount == |values|)
  {
    NonNullCount(values);
  }

  /** Which record a column gets: BOOLEAN is always categorical; INTEGER and DECIMAL
      are numeric exactly when some value parses, text otherwise; any other type is
      categorical exactly when it has at most 20 distinct values or at most one per
      two values, text otherwise. */
  lemma ColumnStatsKind(name: string, columnType: ColumnType, values: seq<Option<string>>)
    ensures var stats := ColumnStats(name, columnType, values);
      var nonNull := NonNullValues(values);
      && (columnType == BOOLEAN ==> stats.CategoricalColumnStats?)
      && (columnType in {INTEGER, DECIMAL} ==>
            && (stats.NumericColumnStats? <==> exists x | x in nonNull :: IsDoubleText(x))
            && (stats.NumericColumnStats? ==> stats.numbers == Numbers(nonNull) && stats.nonNullCount == |stats.numbers|)
            && (!stats.NumericColumnStats? ==> stats.TextColumnStats?))
      && (columnType in {STRING, TIMESTAMP, UNKNOWN} ==>
            && (stats.CategoricalColumnStats? <==> IsCategorical(nonNull))
            && (!stats.CategoricalColumnStats? ==> stats.TextColumnStats?))
  {
    var nonNull := NonNullValues(values);
    if columnType in {INTEGER, DECIMAL} {
      if exists x | x in nonNull :: IsDoubleText(x) {
        var x :| x in nonNull && IsDoubleText(x);
        NumbersSpec(nonNull, x);
      } else if |Numbers(nonNull)| > 0 {
        NumbersSpec(nonNull, Numbers(nonNull)[0]);
      }
    }
  }

  lemma DuplicateMultiplicity<T>(s: seq<T>, i: nat, j: nat)
    requires i < j < |s| && s[i] == s[j]
    ensures multiset(s)[s[i]] >= 2
  {
    assert s == s[..j] + s[j..];
    assert s[i] in s[..j];
    assert s[j] in s[j..];
  }

  lemma {:induction false} DistinctMultiplicity<T>(s: seq<T>, x: T)
    requires NoDuplicates(s)
    ensures multiset(s)[x] <= 1
  {
    if |s| > 0 {
      var n := |s| - 1;
      DistinctMultiplicity(s[..n], x);
      assert s == s[..n] + [s[n]];
      if s[n] == x {
        assert x !in s[..n];
      }
    }
  }

  /** Every element of the sorted counts is an entry of the counts. */
  lemma SortedEntry(values: seq<string>, m: nat)
    requires m < |SortDesc(ValueCounts(values))|
    ensures var e := SortDesc(ValueCounts(values))[m];
      e.0 in values && e.1 == Count(values, e.0) && e.1 > 0
  {
    var entries := ValueCounts(values);
    var e := SortDesc(entries)[m];
    SortDescPermutes(entries);
    assert e in multiset(SortDesc(entries));
    assert e in multiset(entries);
    var k :| 0 <= k < |entries| && entries[k] == e;
    assert Distinct(values)[k] in values;
  }

  /** The sorted counts name every value once. */
  lemma SortedKeysDistinct(values: seq<string>, i: nat, j: nat)
    requires i < j < |SortDesc(ValueCounts(values))|
    ensures SortDesc(ValueCounts(values))[i].0 != SortDesc(ValueCounts(values))[j].0
  {
    var entries := ValueCounts(values);
    var sorted := SortDesc(entries);
    if sorted[i].0 == sorted[j].0 {
      SortedEntry(values, i);
      SortedEntry(values, j);
      SortDescPermutes(entries);
      assert sorted[i] == sorted[j];
      DuplicateMultiplicity(sorted, i, j);
      assert NoDuplicates(entries) by {
        forall a, b | 0 <= a < b < |entries| ensures entries[a] != entries[b] {
          assert entries[a].0 == Distinct(values)[a];
        }
      }
      DistinctMultiplicity(entries, sorted[i]);
    }
  }

  /** The top values: as many as there are distinct values, at most ten; each a real
      value with its true count; by non-increasing count. */
  lemma TopValuesSpec(values: seq<string>)
    ensures var top := TopValues(values);
      var unique := |Distinct(values)|;
      && |top| == (if unique < TOP_VALUES then unique else TOP_VALUES)
      && (forall i | 0 <= i < |top| :: top[i].0 in values && top[i].1 == Count(values, top[i].0) && top[i].1 > 0)
      && Descending(top)
  {
    var entries := ValueCounts(values);
    var sorted := SortDesc(entries);
    var top := TopValues(values);
    SortDescOrdered(entries);
    assert forall i | 0 <= i < |top| :: top[i] == sorted[i];
    forall i | 0 <= i < |top| ensures top[i].0 in values && top[i].1 == Count(values, top[i].0) && top[i].1 > 0 {
      SortedEntry(values, i);
    }
  }

  /** No value is listed twice among the top values. */
  lemma TopValuesDistinct(values: seq<string>)
    ensures var top := TopValues(values);
      forall i, j | 0 <= i < j < |top| :: top[i].0 != top[j].0
  {
    var top := TopValues(values);
    forall i, j | 0 <= i < j < |top| ensures top[i].0 != top[j].0 {
      SortedKeysDistinct(values, i, j);
    }
  }

  /** No value left out of the top values occurs more often than any value listed. */
  lemma TopValuesMaximal(values: seq<string>)
    ensures var top := TopValues(values);
      forall v | v in values && (forall i | 0 <= i < |top| :: top[i].0 != v) ::
        forall i | 0 <= i < |top| :: Count(values, v) <= top[i].1
  {
    var top := TopValues(values);
    forall v | v in values && (forall i | 0 <= i < |top| :: top[i].0 != v)
      ensures forall i | 0 <= i < |top| :: Count(values, v) <= top[i].1
    {
      LeftOutEntry(values, v);
    }
  }

  /** A value left out of the top values sits after them in the sort. */
  lemma LeftOutEntry(values: seq<string>, v: string)
    requires v in values
    requires forall i | 0 <= i < |TopValues(values)| :: TopValues(values)[i].0 != v
    ensures forall i | 0 <= i < |TopValues(values)| :: Count(values, v) <= TopValues(values)[i].1
  {
    var entries := ValueCounts(values);
    var sorted := SortDesc(entries);
    var top := TopValues(values);
    SortDescOrdered(entries);
    SortDescPermutes(entries);
    assert forall i | 0 <= i < |top| :: top[i] == sorted[i];
    var k :| 0 <= k < |Distinct(values)| && Distinct(values)[k] == v;
    assert entries[k] in multiset(entries);
    assert entries[k] in multiset(sorted);
    var m :| 0 <= m < |sorted| && sorted[m] == entries[k];
    assert m >= |top|;
  }

  /** The top values are the first of the stable sort: equal counts keep the order of
      first occurrence. */
  lemma TopValuesStable(values: seq<string>, c: int)
    ensures var sorted := SortDesc(ValueCounts(values));
      && TopValues(values) == sorted[..|TopValues(values)|]
      && WithCount(sorted, c) == WithCount(ValueCounts(values), c)
  {
    SortDescStable(ValueCounts(values), c);
  }

  /** One record per schema column, in order, and the total of the data. */
  lemma CalculateShape(data: ParsedData)
    ensures var stats := Calculate(data);
      && stats.totalRows == data.totalRowCount
      && |stats.columnStats| == |data.schema.columns|
      && forall i | 0 <= i < |data.schema.columns| ::
           && stats.columnStats[i].name == data.schema.columns[i].name
           && stats.columnStats[i].columnType == data.schema.columns[i].columnType
           && stats.columnStats[i].nonNullCount + stats.columnStats[i].nullCount <= |data.rows|
  {
    var columns := data.schema.columns;
    forall i | 0 <= i < |columns|
      ensures Calculate(data).columnStats[i].nonNullCount + Calculate(data).columnStats[i].nullCount <= |data.rows|
    {
      ColumnStatsCounts(columns[i].name, columns[i].columnType, ColumnValues(data.rows, columns[i].name));
    }
  }
}
