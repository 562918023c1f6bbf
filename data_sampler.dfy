/**
 * Row sampling: the strategy is chosen from the total row count, then the loaded rows
 * are either cut to a prefix or sampled in strata (head, shuffled middle, tail).
 *
 * The shuffle with the fixed seed 42 returns, for a list of a given size, an order of
 * its positions that depends on the size alone; it is the parameter `shuffle`, which
 * must give a permutation of `0..n-1` for every `n`. Being a function, it gives the
 * same sample for the same input.
 */
module Sampler {
  import opened Options
  import opened Text
  import opened ParsedData
  import Analytics
  import ParseEvents

  const FULL_DATA_THRESHOLD: int := 500
  const STATISTICAL_THRESHOLD: int := 5000
  const STATISTICAL_SAMPLE_SIZE: int := 100
  /** The target of the aggregated strategy, before the cap by `maxSampleSize`. */
  const AGGREGATED_SAMPLE_SIZE: int := 20

  /** `p` lists each of the positions `0..n-1` exactly once. */
  predicate IsPermutation(p: seq<nat>, n: nat) {
    && |p| == n
    && (forall i | 0 <= i < n :: p[i] < n)
    && (forall i, j | 0 <= i < j < n :: p[i] != p[j])
  }

  /** A shuffle that gives a permutation for every size. */
  ghost predicate IsShuffle(shuffle: nat -> seq<nat>) {
    forall n: nat :: IsPermutation(shuffle(n), n)
  }

  /** `xs.shuffled(Random(42))`: the elements in the order of the permutation `p` that
      the shuffle gives for this size. */
  function Shuffled<T>(xs: seq<T>, p: seq<nat>): (r: seq<T>)
    requires IsPermutation(p, |xs|)
    ensures |r| == |xs|
  {
    seq(|xs|, i requires 0 <= i < |xs| => xs[p[i]])
  }

  /** The first `k` shuffled elements of `rows[lo..hi]` are the rows at positions
      `lo + p[i]`, all inside `[lo, hi)`. */
  lemma TakeShuffledSlice<T>(rows: seq<T>, lo: nat, hi: nat, p: seq<nat>, k: nat)
    requires lo <= hi <= |rows| && IsPermutation(p, hi - lo) && k <= hi - lo
    ensures var m := Take(Shuffled(rows[lo..hi], p), k);
      && |m| == k
      && forall i | 0 <= i < k :: lo <= lo + p[i] < hi && m[i] == rows[lo + p[i]]
  {
  }

  /** `rows.takeLast(n)` for `0 <= n`. */
  function TakeLast<T>(s: seq<T>, n: nat): (r: seq<T>)
    ensures |r| == if n < |s| then n else |s|
    ensures r == s[|s| - |r|..]
  {
    if n < |s| then s[|s| - n..] else s
  }

  /** Kotlin `Int` division by 5, rounded toward zero. */
  function FifthOf(n: int): int {
    if n >= 0 then n / 5 else -((-n) / 5)
  }

  /** A fifth of a non-negative size: head and tail together never exceed it. */
  lemma FifthBounds(n: nat)
    ensures 0 <= n / 5 && 2 * (n / 5) <= n
  {
  }

  /** `stratifiedSample`, as the value it returns. With a negative size Kotlin's `take`
      throws: on the head when `sampleSize / 5` is negative, otherwise on the middle
      when there are rows between head and tail. */
  function Stratified(rows: seq<DataRow>, sampleSize: int, shuffle: nat -> seq<nat>): Result<seq<DataRow>>
    requires IsShuffle(shuffle)
  {
    if |rows| <= sampleSize then Ok(rows)
    else
      var count := FifthOf(sampleSize);
      var middleCount := sampleSize - 2 * count;
      if count < 0 then Failure(ParseEvents.NegativeTakeMessage(count))
      else if |rows| - count > count && middleCount < 0 then Failure(ParseEvents.NegativeTakeMessage(middleCount))
      else Ok(Take(rows, count) + StratifiedMiddle(rows, count, middleCount, shuffle) + TakeLast(rows, count))
  }

  /** The middle stratum: the shuffled rows between a head and a tail of `count` rows
      each, cut to `middleCount`; none when head and tail meet. */
  function StratifiedMiddle(rows: seq<DataRow>, count: nat, middleCount: int, shuffle: nat -> seq<nat>): seq<DataRow>
    requires IsShuffle(shuffle)
  {
    if |rows| - count > count && middleCount >= 0 then
      Take(Shuffled(rows[count..|rows| - count], shuffle(|rows| - 2 * count)), middleCount)
    else []
  }

  /** `stratifiedSample`: the head, the middle and the tail appended to a fresh list. */
  method StratifiedSample(rows: seq<DataRow>, sampleSize: int, shuffle: nat -> seq<nat>)
    returns (sample: Result<seq<DataRow>>)
    requires IsShuffle(shuffle)
    ensures sample == Stratified(rows, sampleSize, shuffle)
  {
    if |rows| <= sampleSize {
      return Ok(rows);
    }
    var headCount := FifthOf(sampleSize);
    if headCount < 0 {
      return Failure(ParseEvents.NegativeTakeMessage(headCount));
    }
    sample := AssembleSample(rows, sampleSize, headCount, shuffle);
  }

  /** The rest of `stratifiedSample` once the head count is known to be valid. */
  method AssembleSample(rows: seq<DataRow>, sampleSize: int, headCount: nat, shuffle: nat -> seq<nat>)
    returns (sample: Result<seq<DataRow>>)
    requires IsShuffle(shuffle) && sampleSize < |rows| && headCount == FifthOf(sampleSize)
    ensures sample == Stratified(rows, sampleSize, shuffle)
  {
    var result: seq<DataRow> := [];
    var headRows := Take(rows, headCount);
    result := result + headRows;
    var tailCount := headCount;
    var tailRows := TakeLast(rows, tailCount);
    var middleCount := sampleSize - headCount - tailCount;
    var middleStart, middleEnd := headCount, |rows| - tailCount;
    var middleRows: seq<DataRow> := [];
    if middleEnd > middleStart {
      if middleCount < 0 {
        return Failure(ParseEvents.NegativeTakeMessage(middleCount));
      }
      middleRows := Take(Shuffled(rows[middleStart..middleEnd], shuffle(middleEnd - middleStart)), middleCount);
    }
    assert middleRows == StratifiedMiddle(rows, headCount, middleCount, shuffle);
    result := result + middleRows;
    result := result + tailRows;
    assert [] + headRows == headRows;
    StratifiedOk(rows, sampleSize, shuffle);
    return Ok(result);
  }

  /** Past its failures, a larger data set gives its head, middle and tail. */
  lemma StratifiedOk(rows: seq<DataRow>, sampleSize: int, shuffle: nat -> seq<nat>)
    requires IsShuffle(shuffle) && sampleSize < |rows|
    requires FifthOf(sampleSize) >= 0
    requires |rows| - FifthOf(sampleSize) > FifthOf(sampleSize) ==> sampleSize - 2 * FifthOf(sampleSize) >= 0
    ensures var count := FifthOf(sampleSize);
      Stratified(rows, sampleSize, shuffle)
      == Ok(Take(rows, count) + StratifiedMiddle(rows, count, sampleSize - 2 * count, shuffle) + TakeLast(rows, count))
  {
  }

  /** The positions of the rows the middle stratum takes: shuffled positions of the
      range between head and tail, shifted to positions in `rows`. */
  function MiddlePositions(n: nat, sampleSize: nat, shuffle: nat -> seq<nat>): (ps: seq<nat>)
    requires IsShuffle(shuffle) && sampleSize < n
  {
    var count := sampleSize / 5;
    var p := shuffle(n - 2 * count);
    seq(sampleSize - 2 * count, i requires 0 <= i < sampleSize - 2 * count => count + p[i])
  }

  /** A data set no larger than the target comes back unchanged. */
  lemma StratifiedSmall(rows: seq<DataRow>, sampleSize: int, shuffle: nat -> seq<nat>)
    requires IsShuffle(shuffle) && |rows| <= sampleSize
    ensures Stratified(rows, sampleSize, shuffle) == Ok(rows)
  {
  }

  /** The middle stratum of a larger data set fills the share head and tail leave,
      from distinct positions strictly between head and tail. */
  lemma StratifiedMiddleSpec(rows: seq<DataRow>, sampleSize: nat, shuffle: nat -> seq<nat>)
    requires IsShuffle(shuffle) && sampleSize < |rows|
    ensures var count := sampleSize / 5;
      var middle := StratifiedMiddle(rows, count, sampleSize - 2 * count, shuffle);
      var ps := MiddlePositions(|rows|, sampleSize, shuffle);
      && |middle| == |ps| == sampleSize - 2 * count
      && (forall i | 0 <= i < |ps| :: count <= ps[i] < |rows| - count && middle[i] == rows[ps[i]])
      && (forall i, j | 0 <= i < j < |ps| :: ps[i] != ps[j])
  {
    var n, count := |rows|, sampleSize / 5;
    FifthBounds(sampleSize);
    var p := shuffle(n - 2 * count);
    assert IsPermutation(p, n - 2 * count);
    TakeShuffledSlice(rows, count, n - count, p, sampleSize - 2 * count);
  }

  /** A larger data set gives its head, its middle stratum and its tail. */
  lemma StratifiedParts(rows: seq<DataRow>, sampleSize: int, shuffle: nat -> seq<nat>)
    requires IsShuffle(shuffle) && 0 <= sampleSize < |rows|
    ensures var count := sampleSize / 5;
      && 2 * count <= sampleSize
      && Stratified(rows, sampleSize, shuffle)
         == Ok(Take(rows, count) + StratifiedMiddle(rows, count, sampleSize - 2 * count, shuffle) + TakeLast(rows, count))
  {
    FifthBounds(sampleSize);
  }

  /** A larger data set gives exactly `sampleSize` rows: the first and the last
      `sampleSize / 5` rows in their original order around the middle stratum. */
  lemma StratifiedLarge(rows: seq<DataRow>, sampleSize: int, shuffle: nat -> seq<nat>)
    requires IsShuffle(shuffle) && 0 <= sampleSize < |rows|
    ensures var r := Stratified(rows, sampleSize, shuffle);
      var count := sampleSize / 5;
      && r.Ok?
      && |r.value| == sampleSize
      && r.value[..count] == rows[..count]
      && r.value[sampleSize - count..] == rows[|rows| - count..]
  {
    var count := sampleSize / 5;
    StratifiedParts(rows, sampleSize, shuffle);
    StratifiedMiddleSpec(rows, sampleSize, shuffle);
    var head, middle, tail := Take(rows, count), StratifiedMiddle(rows, count, sampleSize - 2 * count, shuffle), TakeLast(rows, count);
    assert head == rows[..count] && tail == rows[|rows| - count..];
    ThreePartSlices(head, middle, tail);
  }

  /** Between head and tail, the sample holds the rows at the middle positions: distinct
      positions strictly between the first and the last `sampleSize / 5` rows. */
  lemma StratifiedLargeMiddle(rows: seq<DataRow>, sampleSize: int, shuffle: nat -> seq<nat>)
    requires IsShuffle(shuffle) && 0 <= sampleSize < |rows|
    ensures var r := Stratified(rows, sampleSize, shuffle);
      var count := sampleSize / 5;
      var ps := MiddlePositions(|rows|, sampleSize, shuffle);
      && r.Ok?
      && |ps| == sampleSize - 2 * count
      && |r.value| == sampleSize
      && (forall i | 0 <= i < |ps| :: count <= ps[i] < |rows| - count && r.value[count + i] == rows[ps[i]])
      && (forall i, j | 0 <= i < j < |ps| :: ps[i] != ps[j])
  {
    var count := sampleSize / 5;
    StratifiedParts(rows, sampleSize, shuffle);
    StratifiedMiddleSpec(rows, sampleSize, shuffle);
    var head, middle, tail := Take(rows, count), StratifiedMiddle(rows, count, sampleSize - 2 * count, shuffle), TakeLast(rows, count);
    ThreePartSlices(head, middle, tail);
  }

  /** The parts of a three-part concatenation, recovered by slicing. */
  lemma ThreePartSlices<T>(a: seq<T>, b: seq<T>, c: seq<T>)
    ensures (a + b + c)[..|a|] == a
    ensures (a + b + c)[|a| + |b|..] == c
    ensures forall i | 0 <= i < |b| :: (a + b + c)[|a| + i] == b[i]
  {
  }

  /** `sample`: the strategy follows `totalRowCount`, the rows sampled are the loaded
      ones. Full data is a prefix, where `take` of a negative count throws. */
  function Sample(data: ParsedData, maxSampleSize: int, shuffle: nat -> seq<nat>): Result<seq<DataRow>>
    requires IsShuffle(shuffle)
  {
    match Analytics.ForRowCount(data.totalRowCount)
    case FULL_DATA =>
      if maxSampleSize < 0 then Failure(ParseEvents.NegativeTakeMessage(maxSampleSize))
      else Ok(Take(data.rows, maxSampleSize))
    case STATISTICAL => Stratified(data.rows, maxSampleSize, shuffle)
    case AGGREGATED => Stratified(data.rows, ParseEvents.Min(AGGREGATED_SAMPLE_SIZE, maxSampleSize), shuffle)
  }

  /** The number of rows each strategy aims for. */
  function Target(strategy: Analytics.SamplingStrategy, maxSampleSize: int): int {
    match strategy
    case AGGREGATED => ParseEvents.Min(AGGREGATED_SAMPLE_SIZE, maxSampleSize)
    case _ => maxSampleSize
  }

  /** With a non-negative maximum every strategy succeeds and returns as many rows as
      its target allows, at most the loaded rows; full data returns a prefix, and
      the stratified strategies keep the rows unchanged when they fit. */
  lemma SampleSize(data: ParsedData, maxSampleSize: int, shuffle: nat -> seq<nat>)
    requires IsShuffle(shuffle) && 0 <= maxSampleSize
    ensures var strategy := Analytics.ForRowCount(data.totalRowCount);
      var target := Target(strategy, maxSampleSize);
      var r := Sample(data, maxSampleSize, shuffle);
      && r.Ok?
      && |r.value| == (if |data.rows| < target then |data.rows| else target)
      && |r.value| <= maxSampleSize
      && (strategy == Analytics.FULL_DATA ==> r.value == data.rows[..|r.value|])
      && (|data.rows| <= target ==> r.value == data.rows)
  {
    var strategy := Analytics.ForRowCount(data.totalRowCount);
    var target := Target(strategy, maxSampleSize);
    if strategy != Analytics.FULL_DATA && target < |data.rows| {
      StratifiedLarge(data.rows, target, shuffle);
    }
  }

  /** `sample(data)` with a negative maximum throws unless it is a stratified sample of
      no rows. */
  lemma SampleNegative(data: ParsedData, maxSampleSize: int, shuffle: nat -> seq<nat>)
    requires IsShuffle(shuffle) && maxSampleSize < 0
    ensures Sample(data, maxSampleSize, shuffle).Failure?
      <==> Analytics.ForRowCount(data.totalRowCount) == Analytics.FULL_DATA || |data.rows| > 0 || maxSampleSize <= -5
  {
  }

  /** The default maximum of 100 rows: a large data set gives exactly 100 rows under the
      statistical strategy and at most 20 under the aggregated one. */
  lemma SampleDefault(data: ParsedData, shuffle: nat -> seq<nat>)
    requires IsShuffle(shuffle)
    ensures var r := Sample(data, STATISTICAL_SAMPLE_SIZE, shuffle);
      && r.Ok?
      && |r.value| <= STATISTICAL_SAMPLE_SIZE
      && (Analytics.ForRowCount(data.totalRowCount) == Analytics.AGGREGATED ==> |r.value| <= AGGREGATED_SAMPLE_SIZE)
      && (Analytics.ForRowCount(data.totalRowCount) == Analytics.STATISTICAL && |data.rows| >= STATISTICAL_SAMPLE_SIZE
          ==> |r.value| == STATISTICAL_SAMPLE_SIZE)
  {
    SampleSize(data, STATISTICAL_SAMPLE_SIZE, shuffle);
  }

  /** `determineStrategy`: the thresholds of the sampler are those of the strategy. */
  function DetermineStrategy(rowCount: int): (s: Analytics.SamplingStrategy)
    ensures s == Analytics.FULL_DATA <==> rowCount < FULL_DATA_THRESHOLD
    ensures s == Analytics.STATISTICAL <==> FULL_DATA_THRESHOLD <= rowCount < STATISTICAL_THRESHOLD
    ensures s == Analytics.AGGREGATED <==> STATISTICAL_THRESHOLD <= rowCount
  {
    Analytics.ForRowCount(rowCount)
  }
}
