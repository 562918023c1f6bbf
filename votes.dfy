/**
 * Counting and majority votes as the Kotlin collections compute them:
 * `count { it == x }`, `distinct()`, `maxByOrNull` (which keeps the FIRST
 * element of greatest value) and the idiom
 * `groupingBy { it }.eachCount().maxByOrNull { it.value }?.key`, whose map
 * keeps its keys in order of first occurrence.
 */
module Votes {
  import opened Options

  /** The number of occurrences of `x` in `s`. */
  function Count<T(==)>(s: seq<T>, x: T): (n: nat)
    ensures n <= |s|
    ensures n > 0 <==> x in s
  {
    if |s| == 0 then 0
    else Count(s[..|s| - 1], x) + (if s[|s| - 1] == x then 1 else 0)
  }

  /** Counting distributes over concatenation. */
  lemma {:induction false} CountSplit<T>(a: seq<T>, b: seq<T>, x: T)
    ensures Count(a + b, x) == Count(a, x) + Count(b, x)
    decreases |b|
  {
    if |b| > 0 {
      assert (a + b)[..|a + b| - 1] == a + b[..|b| - 1];
      CountSplit(a, b[..|b| - 1], x);
    } else {
      assert a + b == a;
    }
  }

  predicate NoDuplicates<T(==)>(s: seq<T>) {
    forall i, j | 0 <= i < j < |s| :: s[i] != s[j]
  }

  /** Kotlin `distinct()`: each element once, in order of first occurrence. */
  function Distinct<T(==)>(s: seq<T>): (d: seq<T>)
    ensures NoDuplicates(d)
    ensures forall x | x in s :: x in d
    ensures forall x | x in d :: x in s
    ensures |d| <= |s|
  {
    if |s| == 0 then []
    else
      var d := Distinct(s[..|s| - 1]);
      if s[|s| - 1] in d then d else d + [s[|s| - 1]]
  }

  /** The order of `Distinct`: when the `k`-th distinct element has not yet appeared
      by position `p`, the element at `p` is one of the distinct elements before it. */
  lemma {:induction false} DistinctOrder<T>(s: seq<T>, p: nat, k: nat)
    requires p < |s| && k < |Distinct(s)|
    requires Distinct(s)[k] !in s[..p + 1]
    ensures s[p] in Distinct(s)[..k]
  {
    var s' := s[..|s| - 1];
    var c := s[|s| - 1];
    var d' := Distinct(s');
    var d := Distinct(s);
    assert s[..p + 1][p] == s[p];
    assert s[..|s|] == s;
    if p < |s'| {
      assert s'[..p + 1] == s[..p + 1];
      assert s'[p] == s[p];
      if c in d' {
        DistinctOrder(s', p, k);
      } else if k < |d'| {
        assert d[k] == d'[k];
        DistinctOrder(s', p, k);
        assert d[..k] == d'[..k];
      } else {
        assert s[p] in d';
        assert d[..k] == d';
      }
    }
  }

  /** `keys[k]` is the first key of greatest count in `s`: every earlier key occurs
      strictly less often, no later key more often. */
  predicate IsFirstMax<T(==)>(keys: seq<T>, s: seq<T>, k: nat) {
    k < |keys|
    && (forall i | 0 <= i < k :: Count(s, keys[i]) < Count(s, keys[k]))
    && (forall i | k < i < |keys| :: Count(s, keys[i]) <= Count(s, keys[k]))
  }

  /** Kotlin `keys.maxByOrNull { count of it in s }`, as a position in `keys`: the scan
      replaces its candidate only on a strictly greater count. */
  function FirstMaxIndex<T(==)>(keys: seq<T>, s: seq<T>): (k: nat)
    requires |keys| > 0
    ensures IsFirstMax(keys, s, k)
  {
    if |keys| == 1 then 0
    else
      var k := FirstMaxIndex(keys[..|keys| - 1], s);
      assert forall i | 0 <= i < |keys| - 1 :: keys[..|keys| - 1][i] == keys[i];
      if Count(s, keys[k]) < Count(s, keys[|keys| - 1]) then |keys| - 1 else k
  }

  /** `groupingBy { it }.eachCount().maxByOrNull { it.value }?.key`: the most frequent
      element, ties going to the one that occurs first. */
  function Majority<T(==)>(s: seq<T>): (r: Option<T>)
    ensures r.None? <==> |s| == 0
    ensures r.Some? ==> r.value in s
  {
    if |s| == 0 then None
    else
      assert s[0] in Distinct(s);
      var d := Distinct(s);
      Some(d[FirstMaxIndex(d, s)])
  }

  /** The majority occurs at least as often as any other element. */
  lemma MajorityIsMostFrequent<T>(s: seq<T>, x: T)
    requires x in s
    ensures Majority(s).Some? && Count(s, x) <= Count(s, Majority(s).value)
  {
    var d := Distinct(s);
    var k := FirstMaxIndex(d, s);
    var i :| 0 <= i < |d| && d[i] == x;
  }

  /** Ties go to the element seen first: anything met before the majority's first
      occurrence is strictly less frequent. */
  lemma MajorityIsFirstOfTies<T>(s: seq<T>, p: nat)
    requires p < |s| && Majority(s).Some? && Majority(s).value !in s[..p + 1]
    ensures Count(s, s[p]) < Count(s, Majority(s).value)
  {
    var d := Distinct(s);
    var k := FirstMaxIndex(d, s);
    assert Majority(s).value == d[k];
    DistinctOrder(s, p, k);
    BeforeFirstMax(d, s, k, s[p]);
  }

  lemma BeforeFirstMax<T>(keys: seq<T>, s: seq<T>, k: nat, x: T)
    requires IsFirstMax(keys, s, k) && x in keys[..k]
    ensures Count(s, x) < Count(s, keys[k])
  {
    var i :| 0 <= i < k && keys[..k][i] == x;
    assert keys[i] == x;
  }

  /** The majority of a list of identical values is that value. */
  lemma MajorityOfUniform<T>(s: seq<T>, x: T)
    requires |s| > 0 && forall i | 0 <= i < |s| :: s[i] == x
    ensures Majority(s) == Some(x)
  {
    assert s[0] == x;
  }
}
