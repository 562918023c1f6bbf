/**
 * The Kotlin/JVM string primitives the ingestion pipeline relies on, with the
 * semantics of the Kotlin standard library: `Char.isWhitespace`, `isBlank`,
 * `trim`, `lines`, `equals(ignoreCase = true)`, `contains`, `joinToString`,
 * `substringAfterLast`, `take`, `Int.toString` and `String.compareTo`.
 */
module Text {

  // ---------------------------------------------------------------------------
  // Whitespace, blank strings and trimming
  // ---------------------------------------------------------------------------

  /** Kotlin `Char.isWhitespace`: Java whitespace (tab to carriage return, the four
      information separators, space) plus the Unicode space separators. */
  predicate IsWhitespace(c: char) {
    c == ' ' || ('\t' <= c <= '\r') || ('\U{001C}' <= c <= '\U{001F}')
    || c == '\U{00A0}' || c == '\U{1680}' || ('\U{2000}' <= c <= '\U{200A}')
    || c == '\U{2028}' || c == '\U{2029}' || c == '\U{202F}' || c == '\U{205F}'
    || c == '\U{3000}'
  }

  /** Kotlin `isBlank`: empty, or whitespace only. */
  predicate IsBlank(s: string) {
    forall i | 0 <= i < |s| :: IsWhitespace(s[i])
  }

  /** Drops leading whitespace. */
  function TrimStart(s: string): (r: string)
    ensures |r| <= |s|
  {
    if |s| > 0 && IsWhitespace(s[0]) then TrimStart(s[1..]) else s
  }

  /** Drops trailing whitespace. */
  function TrimEnd(s: string): (r: string)
    ensures |r| <= |s|
  {
    if |s| > 0 && IsWhitespace(s[|s| - 1]) then TrimEnd(s[..|s| - 1]) else s
  }

  /** `TrimStart` removes a blank prefix and stops at the first non-whitespace character. */
  lemma {:induction false} TrimStartSpec(s: string)
    ensures TrimStart(s) == s[|s| - |TrimStart(s)|..]
    ensures IsBlank(s[..|s| - |TrimStart(s)|])
    ensures TrimStart(s) == [] || !IsWhitespace(TrimStart(s)[0])
  {
    if |s| > 0 && IsWhitespace(s[0]) {
      TrimStartSpec(s[1..]);
      var r := TrimStart(s[1..]);
      assert s[1..][..|s| - 1 - |r|] == s[..|s| - |r|][1..];
    }
  }

  /** `TrimEnd` removes a blank suffix and stops at the last non-whitespace character. */
  lemma {:induction false} TrimEndSpec(s: string)
    ensures TrimEnd(s) == s[..|TrimEnd(s)|]
    ensures IsBlank(s[|TrimEnd(s)|..])
    ensures TrimEnd(s) == [] || !IsWhitespace(TrimEnd(s)[|TrimEnd(s)| - 1])
  {
    if |s| > 0 && IsWhitespace(s[|s| - 1]) {
      TrimEndSpec(s[..|s| - 1]);
      var r := TrimEnd(s[..|s| - 1]);
      assert s[..|s| - 1][|r|..] == s[|r|..|s| - 1];
      assert s[|r|..] == s[|r|..|s| - 1] + [s[|s| - 1]];
      BlankConcat(s[|r|..|s| - 1], [s[|s| - 1]]);
    }
  }

  /** Kotlin `trim()`: removes whitespace at both ends. */
  function Trim(s: string): string {
    TrimEnd(TrimStart(s))
  }

  /** The trimmed text is a contiguous piece of the input, with blank margins,
      and it neither starts nor ends with whitespace. */
  lemma TrimShape(s: string)
    ensures exists i, j :: 0 <= i <= j <= |s| && Trim(s) == s[i..j] && IsBlank(s[..i]) && IsBlank(s[j..])
    ensures Trim(s) == [] || (!IsWhitespace(Trim(s)[0]) && !IsWhitespace(Trim(s)[|Trim(s)| - 1]))
  {
    var a := TrimStart(s);
    var r := TrimEnd(a);
    TrimStartSpec(s);
    TrimEndSpec(a);
    var i := |s| - |a|;
    var j := i + |r|;
    assert a == s[i..];
    assert r == s[i..j];
    assert a[|r|..] == s[j..];
    if r != [] {
      assert r[0] == a[0];
    }
  }

  lemma {:induction false} BlankTrimStart(s: string)
    requires IsBlank(s)
    ensures TrimStart(s) == []
  {
    if |s| > 0 {
      BlankTrimStart(s[1..]);
    }
  }

  lemma {:induction false} BlankTrimEnd(s: string)
    requires IsBlank(s)
    ensures TrimEnd(s) == []
  {
    if |s| > 0 {
      BlankTrimEnd(s[..|s| - 1]);
    }
  }

  /** Trimming yields the empty string exactly for blank input. */
  lemma TrimEmptyIffBlank(s: string)
    ensures Trim(s) == [] <==> IsBlank(s)
  {
    var a := TrimStart(s);
    TrimStartSpec(s);
    TrimEndSpec(a);
    var p := |s| - |a|;
    assert s == s[..p] + a;
    BlankConcat(s[..p], a);
    assert a[0..] == a;
    if IsBlank(s) {
      BlankTrimStart(s);
      BlankTrimEnd(a);
    }
  }

  /** Trimming is idempotent. */
  lemma TrimIdempotent(s: string)
    ensures Trim(Trim(s)) == Trim(s)
  {
    TrimShape(s);
    var t := Trim(s);
    if t != [] {
      assert TrimStart(t) == t;
      assert TrimEnd(t) == t;
    }
  }

  // ---------------------------------------------------------------------------
  // Lines
  // ---------------------------------------------------------------------------

  /** The characters at which Kotlin `lines()` breaks a text. */
  predicate IsLineBreak(c: char) {
    c == '\n' || c == '\r'
  }

  predicate NoBreaks(s: string) {
    forall i | 0 <= i < |s| :: !IsLineBreak(s[i])
  }

  /** The index of the first line break at or after `i`, or `|s|`. */
  function LineEnd(s: string, i: nat): (k: nat)
    requires i <= |s|
    ensures i <= k <= |s|
    ensures NoBreaks(s[i..k])
    ensures k < |s| ==> IsLineBreak(s[k])
    decreases |s| - i
  {
    if i == |s| || IsLineBreak(s[i]) then i
    else
      var k := LineEnd(s, i + 1);
      assert s[i..k] == [s[i]] + s[i + 1..k];
      k
  }

  /** Kotlin `lines()`: splits at "\r\n", "\n" and "\r" (a "\r\n" pair is one break);
      a text always has at least one line, possibly empty. */
  function Lines(s: string): (r: seq<string>)
    ensures |r| >= 1
    ensures forall j | 0 <= j < |r| :: NoBreaks(r[j])
    decreases |s|
  {
    var k := LineEnd(s, 0);
    if k == |s| then
      assert s[0..k] == s;
      [s]
    else
      var skip := if s[k] == '\r' && k + 1 < |s| && s[k + 1] == '\n' then 2 else 1;
      assert s[0..k] == s[..k];
      [s[..k]] + Lines(s[k + skip..])
  }

  /** The lines that are not blank, in order (Kotlin `filter { it.isNotBlank() }`). */
  function NonBlank(lines: seq<string>): (r: seq<string>)
    ensures |r| <= |lines|
    ensures forall j | 0 <= j < |r| :: !IsBlank(r[j]) && r[j] in lines
  {
    if |lines| == 0 then []
    else if IsBlank(lines[0]) then NonBlank(lines[1..])
    else [lines[0]] + NonBlank(lines[1..])
  }

  /** `content.lines().filter { it.isNotBlank() }` */
  function NonBlankLines(s: string): seq<string> {
    NonBlank(Lines(s))
  }

  lemma BlankConcat(a: string, b: string)
    ensures IsBlank(a + b) <==> IsBlank(a) && IsBlank(b)
  {
    if IsBlank(a + b) {
      forall i | 0 <= i < |b| ensures IsWhitespace(b[i]) {
        assert (a + b)[|a| + i] == b[i];
      }
      forall i | 0 <= i < |a| ensures IsWhitespace(a[i]) {
        assert (a + b)[i] == a[i];
      }
    }
  }

  predicate AllBlank(lines: seq<string>) {
    forall j | 0 <= j < |lines| :: IsBlank(lines[j])
  }

  lemma AllBlankCons(line: string, lines: seq<string>)
    ensures AllBlank([line] + lines) <==> IsBlank(line) && AllBlank(lines)
  {
    if IsBlank(line) && AllBlank(lines) {
      forall j | 1 <= j < |lines| + 1 ensures IsBlank(([line] + lines)[j]) {
        assert ([line] + lines)[j] == lines[j - 1];
      }
    }
    if AllBlank([line] + lines) {
      assert ([line] + lines)[0] == line;
      forall j | 0 <= j < |lines| ensures IsBlank(lines[j]) {
        assert ([line] + lines)[j + 1] == lines[j];
      }
    }
  }

  /** A text split around a run of line breaks is blank exactly when both sides are. */
  lemma BlankAroundBreak(s: string, k: nat, skip: nat)
    requires k + skip <= |s|
    requires forall m | k <= m < k + skip :: IsLineBreak(s[m])
    ensures IsBlank(s) <==> IsBlank(s[..k]) && IsBlank(s[k + skip..])
  {
    assert s[..k + skip] == s[..k] + s[k..k + skip];
    assert s == s[..k + skip] + s[k + skip..];
    assert IsBlank(s[k..k + skip]);
    BlankConcat(s[..k], s[k..k + skip]);
    BlankConcat(s[..k] + s[k..k + skip], s[k + skip..]);
  }

  /** A text is blank exactly when all of its lines are. */
  lemma {:induction false} LinesBlank(s: string)
    ensures IsBlank(s) <==> AllBlank(Lines(s))
    decreases |s|
  {
    var k := LineEnd(s, 0);
    if k == |s| {
      assert Lines(s) == [s];
      assert Lines(s)[0] == s;
    } else {
      var skip := if s[k] == '\r' && k + 1 < |s| && s[k + 1] == '\n' then 2 else 1;
      var rest := s[k + skip..];
      LinesBlank(rest);
      assert Lines(s) == [s[..k]] + Lines(rest);
      BlankAroundBreak(s, k, skip);
      AllBlankCons(s[..k], Lines(rest));
    }
  }

  lemma NonBlankEmptyIff(lines: seq<string>)
    ensures NonBlank(lines) == [] <==> AllBlank(lines)
  {
    if |lines| > 0 {
      NonBlankEmptyIff(lines[1..]);
      if NonBlank(lines) == [] {
        forall j | 0 <= j < |lines| ensures IsBlank(lines[j]) {
          if j > 0 { assert lines[1..][j - 1] == lines[j]; }
        }
      }
    }
  }

  /** A text has no non-blank line exactly when it is blank. */
  lemma NonBlankLinesEmptyIff(s: string)
    ensures NonBlankLines(s) == [] <==> IsBlank(s)
  {
    LinesBlank(s);
    NonBlankEmptyIff(Lines(s));
  }

  lemma LineEndAt(s: string, i: nat, k: nat)
    requires i <= k <= |s|
    requires forall m | i <= m < k :: !IsLineBreak(s[m])
    requires k < |s| ==> IsLineBreak(s[k])
    ensures LineEnd(s, i) == k
    decreases k - i
  {
    if i < k {
      LineEndAt(s, i + 1, k);
    }
  }

  /** A text without breaks is a single line. */
  lemma LinesOfUnbroken(a: string)
    requires NoBreaks(a)
    ensures Lines(a) == [a]
  {
    LineEndAt(a, 0, |a|);
  }

  /** Splitting `a + "\n" + b` yields the line `a` and then the lines of `b`. */
  lemma LinesOfNewline(a: string, b: string)
    requires NoBreaks(a)
    ensures Lines(a + "\n" + b) == [a] + Lines(b)
  {
    var s := a + "\n" + b;
    LineEndAt(s, 0, |a|);
    assert s[..|a|] == a;
    assert s[|a| + 1..] == b;
  }

  lemma ConsConcat<T>(s: seq<T>, tail: seq<T>)
    requires |s| > 0
    ensures [s[0]] + (s[1..] + tail) == s + tail
  {
    assert s == [s[0]] + s[1..];
  }

  lemma TakeSnoc<T>(s: seq<T>, j: nat)
    requires j < |s|
    ensures s[..j + 1] == s[..j] + [s[j]]
  {
  }

  lemma TakeAll<T>(s: seq<T>)
    ensures s[..|s|] == s
  {
  }

  lemma SliceOfLeft<T>(a: seq<T>, b: seq<T>, i: nat, j: nat)
    requires i <= j <= |a|
    ensures (a + b)[i..j] == a[i..j]
  {
  }

  lemma SliceOfRight<T>(a: seq<T>, b: seq<T>)
    ensures (a + b)[|a|..|a| + |b|] == b
  {
  }

  lemma ConcatAssoc<T>(a: seq<T>, b: seq<T>, c: seq<T>)
    ensures a + b + c == a + (b + c)
  {
  }

  /** Kotlin `map`: `f` applied to every element, in order. */
  function Map<T, U>(xs: seq<T>, f: T -> U): (r: seq<U>)
    ensures |r| == |xs|
    ensures forall i | 0 <= i < |xs| :: r[i] == f(xs[i])
  {
    seq(|xs|, i requires 0 <= i < |xs| => f(xs[i]))
  }

  /** Mapping one element more maps the prefix and appends the new image. */
  lemma MapSnoc<T, U>(xs: seq<T>, i: nat, f: T -> U)
    requires i < |xs|
    ensures Map(xs[..i + 1], f) == Map(xs[..i], f) + [f(xs[i])]
  {
  }

  /** Mapping a prefix or a suffix gives that part of the mapping. */
  lemma MapSlices<T, U>(xs: seq<T>, k: nat, f: T -> U)
    requires k <= |xs|
    ensures Map(xs[..k], f) == Map(xs, f)[..k]
    ensures Map(xs[k..], f) == Map(xs, f)[k..]
  {
  }

  /** Kotlin `flatten` on lists: the blocks one after another. */
  function Concat<T>(blocks: seq<seq<T>>): seq<T> {
    if |blocks| == 0 then [] else Concat(blocks[..|blocks| - 1]) + blocks[|blocks| - 1]
  }

  lemma ConcatSnoc<T>(blocks: seq<seq<T>>, last: seq<T>)
    ensures Concat(blocks + [last]) == Concat(blocks) + last
  {
    assert (blocks + [last])[..|blocks|] == blocks;
  }

  lemma {:induction false} ConcatAppend<T>(a: seq<seq<T>>, b: seq<seq<T>>)
    ensures Concat(a + b) == Concat(a) + Concat(b)
  {
    if |b| > 0 {
      var n := |b| - 1;
      ConcatAppend(a, b[..n]);
      assert (a + b)[..|a + b| - 1] == a + b[..n];
      ConcatAssoc(Concat(a), Concat(b[..n]), b[n]);
    } else {
      assert a + b == a;
    }
  }

  /** A sequence is its elements before `k`, its `k`-th and those after. */
  lemma SplitAround<T>(s: seq<T>, k: nat)
    requires k < |s|
    ensures s == (s[..k] + [s[k]]) + s[k + 1..]
  {
    assert s[..k] + [s[k]] == s[..k + 1];
  }

  /** Block `k` comes right after the blocks before it and right before the blocks
      after it. */
  lemma ConcatSplit<T>(blocks: seq<seq<T>>, k: nat)
    requires k < |blocks|
    ensures Concat(blocks) == Concat(blocks[..k]) + blocks[k] + Concat(blocks[k + 1..])
  {
    var before, block, after := blocks[..k], blocks[k], blocks[k + 1..];
    SplitAround(blocks, k);
    ConcatAppend(before + [block], after);
    ConcatSnoc(before, block);
  }

  lemma {:induction false} ConcatNoBreaks(blocks: seq<seq<string>>)
    requires forall b | 0 <= b < |blocks| :: AllNoBreaks(blocks[b])
    ensures AllNoBreaks(Concat(blocks))
  {
    if |blocks| > 0 {
      var n := |blocks| - 1;
      assert forall b | 0 <= b < n :: blocks[..n][b] == blocks[b];
      ConcatNoBreaks(blocks[..n]);
      AllNoBreaksConcat(Concat(blocks[..n]), blocks[n]);
    }
  }

  /** No part of `parts` holds a line break. */
  predicate AllNoBreaks(parts: seq<string>) {
    forall j | 0 <= j < |parts| :: NoBreaks(parts[j])
  }

  lemma AllNoBreaksConcat(a: seq<string>, b: seq<string>)
    requires AllNoBreaks(a) && AllNoBreaks(b)
    ensures AllNoBreaks(a + b)
  {
    assert forall j | |a| <= j < |a + b| :: (a + b)[j] == b[j - |a|];
  }

  lemma TerminatedPair(a: string, b: string)
    ensures TerminatedLines([a, b]) == a + "\n" + b + "\n"
  {
    assert [a, b][1..] == [b];
    assert [b][1..] == [];
    assert TerminatedLines([b]) == b + "\n" + "";
    assert b + "\n" + "" == b + "\n";
  }

  lemma TerminatedQuad(a: string, b: string, c: string, d: string)
    ensures TerminatedLines([a, b, c, d]) == a + "\n" + b + "\n" + c + "\n" + d + "\n"
  {
    assert [a, b, c, d][1..] == [b, c, d];
    assert [b, c, d][1..] == [c, d];
    TerminatedPair(c, d);
  }

  /** Eight `appendLine` calls in a row. */
  lemma TerminatedOctet(a: string, b: string, c: string, d: string, e: string, f: string, g: string, h: string)
    ensures TerminatedLines([a, b, c, d, e, f, g, h])
         == a + "\n" + b + "\n" + c + "\n" + d + "\n" + e + "\n" + f + "\n" + g + "\n" + h + "\n"
  {
    var front, back := [a, b, c, d], [e, f, g, h];
    assert [a, b, c, d, e, f, g, h] == front + back;
    TerminatedLinesConcat(front, back);
    TerminatedQuad(a, b, c, d);
    TerminatedQuad(e, f, g, h);
    var head := a + "\n" + b + "\n" + c + "\n" + d + "\n";
    ConcatAssoc(head, e + "\n" + f + "\n" + g + "\n" + h, "\n");
    ConcatAssoc(head, e + "\n" + f + "\n" + g + "\n", h);
    ConcatAssoc(head, e + "\n" + f + "\n" + g, "\n");
    ConcatAssoc(head, e + "\n" + f + "\n", g);
    ConcatAssoc(head, e + "\n" + f, "\n");
    ConcatAssoc(head, e + "\n", f);
    ConcatAssoc(head, e, "\n");
  }

  /** Each part followed by a newline, as `appendLine` accumulates them. */
  function TerminatedLines(parts: seq<string>): string {
    if |parts| == 0 then "" else parts[0] + "\n" + TerminatedLines(parts[1..])
  }

  /** Text written line by line with `appendLine` splits back into exactly those
      lines, followed by the empty remainder after the last newline. */
  lemma {:induction false} LinesOfTerminated(parts: seq<string>)
    requires forall j | 0 <= j < |parts| :: NoBreaks(parts[j])
    ensures Lines(TerminatedLines(parts)) == parts + [""]
  {
    if |parts| == 0 {
      LinesOfUnbroken("");
    } else {
      LinesOfTerminated(parts[1..]);
      LinesOfNewline(parts[0], TerminatedLines(parts[1..]));
      ConsConcat(parts, [""]);
    }
  }

  lemma {:induction false} TerminatedLinesConcat(a: seq<string>, b: seq<string>)
    ensures TerminatedLines(a + b) == TerminatedLines(a) + TerminatedLines(b)
  {
    if |a| > 0 {
      assert (a + b)[1..] == a[1..] + b;
      TerminatedLinesConcat(a[1..], b);
    } else {
      assert a + b == b;
    }
  }

  lemma TerminatedLinesAppend(parts: seq<string>, last: string)
    ensures TerminatedLines(parts + [last]) == TerminatedLines(parts) + last + "\n"
  {
    if |parts| > 0 {
      assert (parts + [last])[1..] == parts[1..] + [last];
      TerminatedLinesAppend(parts[1..], last);
    } else {
      assert TerminatedLines([last]) == last + "\n" + TerminatedLines([]);
    }
  }

  /** A block made of whole lines written with `appendLine`, then an unfinished last
      line: what a `buildString` of lines becomes, before or after a cut. */
  predicate SplitsInto(block: string, lines: seq<string>, last: string) {
    block == TerminatedLines(lines) + last && AllNoBreaks(lines) && NoBreaks(last)
  }

  /** Appending such a block as one line is appending its lines and its last line. */
  lemma SpliceBlock(front: seq<string>, lines: seq<string>, last: string, back: seq<string>)
    ensures TerminatedLines(front + [TerminatedLines(lines) + last] + back)
         == TerminatedLines(front + lines + [last] + back)
  {
    var block := TerminatedLines(lines) + last;
    var a, b, k := TerminatedLines(front), TerminatedLines(lines), TerminatedLines(back);
    var tail := last + "\n";
    assert TerminatedLines([block]) == block + "\n" + "";
    assert TerminatedLines([last]) == tail + "";
    assert block + "\n" == b + tail by { ConcatAssoc(b, last, "\n"); }
    TerminatedLinesConcat(front, [block]);
    TerminatedLinesConcat(front, lines);
    TerminatedLinesConcat(front + lines, [last]);
    assert TerminatedLines(front + [block]) == TerminatedLines(front + lines + [last]) by {
      ConcatAssoc(a, b, tail);
    }
    TerminatedLinesConcat(front + [block], back);
    TerminatedLinesConcat(front + lines + [last], back);
  }

  /** Every prefix of such a block is one again, with a prefix of its lines. */
  lemma {:induction false} PrefixSplits(lines: seq<string>, last: string, n: nat) returns (head: seq<string>, rest: string)
    requires AllNoBreaks(lines) && NoBreaks(last) && n <= |TerminatedLines(lines) + last|
    ensures SplitsInto((TerminatedLines(lines) + last)[..n], head, rest)
    ensures |head| <= |lines| && head == lines[..|head|]
    decreases lines
  {
    var block := TerminatedLines(lines) + last;
    if |lines| == 0 {
      head, rest := [], block[..n];
      assert block == last;
      assert TerminatedLines(head) + rest == rest;
    } else {
      var first := lines[0];
      var tail := TerminatedLines(lines[1..]) + last;
      ConcatAssoc(first + "\n", TerminatedLines(lines[1..]), last);
      assert block == first + "\n" + tail;
      if n <= |first| {
        head, rest := [], first[..n];
        assert block[..n] == first[..n];
        assert TerminatedLines(head) + rest == rest;
      } else {
        assert AllNoBreaks(lines[1..]) by {
          assert forall j | 0 <= j < |lines| - 1 :: lines[1..][j] == lines[j + 1];
        }
        var h, r := PrefixSplits(lines[1..], last, n - |first| - 1);
        head, rest := [first] + h, r;
        assert block[..n] == first + "\n" + tail[..n - |first| - 1];
        assert [first] + h == lines[..|head|];
        assert ([first] + h)[1..] == h;
        ConcatAssoc(first + "\n", TerminatedLines(h), r);
      }
    }
  }

  /** Text without breaks added to the end extends the last line. */
  lemma AppendSplits(block: string, lines: seq<string>, last: string, more: string)
    requires SplitsInto(block, lines, last) && NoBreaks(more)
    ensures SplitsInto(block + more, lines, last + more)
  {
    ConcatAssoc(TerminatedLines(lines), last, more);
  }

  // ---------------------------------------------------------------------------
  // Case
  // ---------------------------------------------------------------------------

  predicate IsAsciiDigit(c: char) {
    '0' <= c <= '9'
  }

  function AsciiUpperChar(c: char): char {
    if 'a' <= c <= 'z' then (c as int - 32) as char else c
  }

  function AsciiLowerChar(c: char): char {
    if 'A' <= c <= 'Z' then (c as int + 32) as char else c
  }

  /** `uppercase()` of a text made of ASCII characters. */
  function AsciiUpper(s: string): (r: string)
    ensures |r| == |s|
    ensures forall i | 0 <= i < |s| :: r[i] == AsciiUpperChar(s[i])
  {
    if |s| == 0 then "" else [AsciiUpperChar(s[0])] + AsciiUpper(s[1..])
  }

  /** `lowercase()` of a text made of ASCII characters. */
  function AsciiLower(s: string): (r: string)
    ensures |r| == |s|
    ensures forall i | 0 <= i < |s| :: r[i] == AsciiLowerChar(s[i])
  {
    if |s| == 0 then "" else [AsciiLowerChar(s[0])] + AsciiLower(s[1..])
  }

  /** Java `Character.toUpperCase`, for every character whose upper case is ASCII:
      the ASCII letters, the long s and the dotless i. */
  function FoldUpper(c: char): char {
    if c == '\U{017F}' then 'S'
    else if c == '\U{0131}' then 'I'
    else AsciiUpperChar(c)
  }

  /** Java `Character.toLowerCase`, for every character whose lower case is ASCII:
      the ASCII letters, the Kelvin sign and the dotted capital I. */
  function FoldLower(c: char): char {
    if c == '\U{212A}' then 'k'
    else if c == '\U{0130}' then 'i'
    else AsciiLowerChar(c)
  }

  /** The character test of Java `String.equalsIgnoreCase` (exact when one side is ASCII). */
  predicate CharEqualsIgnoreCase(a: char, b: char) {
    a == b || FoldUpper(a) == FoldUpper(b) || FoldLower(FoldUpper(a)) == FoldLower(FoldUpper(b))
  }

  /** Kotlin `a.equals(b, ignoreCase = true)`. */
  predicate EqualsIgnoreCase(a: string, b: string) {
    |a| == |b| && forall i | 0 <= i < |a| :: CharEqualsIgnoreCase(a[i], b[i])
  }

  // ---------------------------------------------------------------------------
  // Searching, slicing, joining
  // ---------------------------------------------------------------------------

  predicate StartsWith(s: string, prefix: string) {
    |prefix| <= |s| && s[..|prefix|] == prefix
  }

  /** Kotlin `s.contains(sub)`. */
  predicate Contains(s: string, sub: string)
    decreases |s|
  {
    StartsWith(s, sub) || (|s| > 0 && Contains(s[1..], sub))
  }

  lemma ContainsAt(s: string, sub: string, i: nat)
    requires i + |sub| <= |s| && s[i..i + |sub|] == sub
    ensures Contains(s, sub)
  {
    if i > 0 {
      assert s[1..][i - 1..i - 1 + |sub|] == sub;
      ContainsAt(s[1..], sub, i - 1);
    }
  }

  /** Every character of `sub` occurs in a string that contains it. */
  lemma {:induction false} ContainsHasChar(s: string, sub: string, j: nat)
    requires Contains(s, sub) && j < |sub|
    ensures exists i | 0 <= i < |s| :: s[i] == sub[j]
    decreases |s|
  {
    if StartsWith(s, sub) {
      assert s[j] == sub[j];
    } else {
      ContainsHasChar(s[1..], sub, j);
      var i :| 0 <= i < |s| - 1 && s[1..][i] == sub[j];
      assert s[i + 1] == sub[j];
    }
  }

  /** Kotlin `take(n)` for a non-negative count. */
  function Take<T>(s: seq<T>, n: nat): (r: seq<T>)
    ensures |r| == if n < |s| then n else |s|
    ensures r == s[..|r|]
  {
    if n < |s| then s[..n] else s
  }

  /** The message of Kotlin's `String.take(n)` for a negative count; list `take` words
      it differently (`ParseEvents.NegativeTakeMessage`). */
  function NegativeCharTakeMessage(n: int): string {
    "Requested character count " + IntToString(n) + " is less than zero."
  }

  /** Kotlin `joinToString(sep)`. */
  function Join(parts: seq<string>, sep: string): string {
    if |parts| == 0 then ""
    else if |parts| == 1 then parts[0]
    else parts[0] + sep + Join(parts[1..], sep)
  }

  /** Kotlin `c.toString().repeat(n)`. */
  function Repeat(c: char, n: nat): (r: string)
    ensures |r| == n
    ensures forall i | 0 <= i < n :: r[i] == c
  {
    if n == 0 then "" else [c] + Repeat(c, n - 1)
  }

  /** The index of the last occurrence of `c`, or -1. */
  function LastIndexOf(s: string, c: char): (k: int)
    ensures -1 <= k < |s|
    ensures k >= 0 ==> s[k] == c
    ensures forall i | k < i < |s| :: s[i] != c
  {
    if |s| == 0 then -1
    else if s[|s| - 1] == c then |s| - 1
    else LastIndexOf(s[..|s| - 1], c)
  }

  /** Kotlin `substringAfterLast(c, missing)`. */
  function SubstringAfterLast(s: string, c: char, missing: string): (r: string)
    ensures c !in s ==> r == missing
    ensures c in s ==> c !in r && exists k :: 0 <= k < |s| && s[k] == c && r == s[k + 1..]
  {
    var k := LastIndexOf(s, c);
    if k < 0 then
      missing
    else
      assert c in s;
      var r := s[k + 1..];
      assert c !in r by {
        forall i | 0 <= i < |r| ensures r[i] != c {
          assert r[i] == s[k + 1 + i];
        }
      }
      r
  }

  // ---------------------------------------------------------------------------
  // Decimal rendering of integers
  // ---------------------------------------------------------------------------

  function DigitChar(d: nat): char
    requires d < 10
  {
    ('0' as int + d) as char
  }

  /** Decimal digits of a natural number, without leading zeros. */
  function NatToString(n: nat): (r: string)
    ensures |r| >= 1
    ensures forall i | 0 <= i < |r| :: IsAsciiDigit(r[i])
  {
    if n < 10 then [DigitChar(n)] else NatToString(n / 10) + [DigitChar(n % 10)]
  }

  /** Kotlin `Int.toString()` (string templates such as `"$count"`). */
  function IntToString(n: int): string {
    if n < 0 then "-" + NatToString(-n) else NatToString(n)
  }

  // ---------------------------------------------------------------------------
  // Lexicographic order of characters: Kotlin `String.compareTo`, hence `sorted()`,
  // for texts without supplementary characters (Kotlin compares UTF-16 code units)
  // ---------------------------------------------------------------------------

  predicate StrLess(a: string, b: string)
    decreases |a|
  {
    if |a| == 0 then |b| > 0
    else if |b| == 0 then false
    else if a[0] == b[0] then StrLess(a[1..], b[1..])
    else a[0] < b[0]
  }

  lemma StrLessIrreflexive(a: string)
    ensures !StrLess(a, a)
  {
    if |a| > 0 { StrLessIrreflexive(a[1..]); }
  }

  lemma StrLessTransitive(a: string, b: string, c: string)
    requires StrLess(a, b) && StrLess(b, c)
    ensures StrLess(a, c)
    decreases |a|
  {
    if |a| > 0 && |b| > 0 && |c| > 0 && a[0] == b[0] && b[0] == c[0] {
      StrLessTransitive(a[1..], b[1..], c[1..]);
    }
  }

  lemma StrLessTotal(a: string, b: string)
    requires a != b
    ensures StrLess(a, b) || StrLess(b, a)
    decreases |a|
  {
    if |a| > 0 && |b| > 0 && a[0] == b[0] {
      assert a == [a[0]] + a[1..] && b == [b[0]] + b[1..];
      StrLessTotal(a[1..], b[1..]);
    }
  }

  lemma StrLessAsymmetric(a: string, b: string)
    requires StrLess(a, b)
    ensures !StrLess(b, a)
  {
    if StrLess(b, a) {
      StrLessTransitive(a, b, a);
      StrLessIrreflexive(a);
    }
  }

  /** Strictly increasing, hence also free of duplicates. */
  predicate StrictlySorted(s: seq<string>) {
    forall i, j | 0 <= i < j < |s| :: StrLess(s[i], s[j])
  }

  /** `r` is Kotlin's `keys.sorted()` for the set `keys`. */
  predicate IsSortedOf(r: seq<string>, keys: set<string>) {
    StrictlySorted(r) && (forall x | x in keys :: x in r) && (forall x | x in r :: x in keys)
  }

  /** `m` is the least element of `keys`. */
  predicate IsLeast(m: string, keys: set<string>) {
    m in keys && forall y | y in keys && y != m :: StrLess(m, y)
  }

  /** Every non-empty set of strings has a least element. */
  lemma HasLeast(s: set<string>)
    requires s != {}
    ensures exists m :: IsLeast(m, s)
  {
    var x :| x in s;
    if s != {x} {
      HasLeast(s - {x});
      var m' :| IsLeast(m', s - {x});
      if StrLess(x, m') {
        forall y | y in s && y != x ensures StrLess(x, y) {
          if y != m' { StrLessTransitive(x, m', y); }
        }
        assert IsLeast(x, s);
      } else {
        StrLessTotal(x, m');
        assert IsLeast(m', s);
      }
    } else {
      assert IsLeast(x, s);
    }
  }

  lemma SortedOfEmpty(r: seq<string>, keys: set<string>)
    requires IsSortedOf(r, keys)
    ensures r == [] <==> keys == {}
  {
    if |r| > 0 {
      assert r[0] in keys;
    }
  }

  /** The sorted order of a key set is unique. */
  lemma {:induction false} SortedOfUnique(r1: seq<string>, r2: seq<string>, keys: set<string>)
    requires IsSortedOf(r1, keys) && IsSortedOf(r2, keys)
    ensures r1 == r2
    decreases |r1|
  {
    if |r1| == 0 {
      SortedOfEmpty(r1, keys);
      SortedOfEmpty(r2, keys);
    } else {
      assert r1[0] in keys;
      assert |r2| > 0;
      if r1[0] != r2[0] {
        var i :| 0 <= i < |r2| && r2[i] == r1[0];
        assert r2[0] in keys;
        var j :| 0 <= j < |r1| && r1[j] == r2[0];
        assert i > 0 && j > 0;
        StrLessAsymmetric(r2[0], r2[i]);
      }
      var rest := keys - {r1[0]};
      forall x ensures x in rest <==> x in r1[1..] {
        if x in r1[1..] {
          var k :| 1 <= k < |r1| && r1[k] == x;
          StrLessIrreflexive(x);
        }
        if x in keys && x != r1[0] {
          var k :| 0 <= k < |r1| && r1[k] == x;
          assert k > 0;
          assert r1[1..][k - 1] == x;
        }
      }
      forall x ensures x in rest <==> x in r2[1..] {
        if x in r2[1..] {
          var k :| 1 <= k < |r2| && r2[k] == x;
          StrLessIrreflexive(x);
        }
        if x in keys && x != r2[0] {
          var k :| 0 <= k < |r2| && r2[k] == x;
          assert k > 0;
          assert r2[1..][k - 1] == x;
        }
      }
      SortedOfUnique(r1[1..], r2[1..], rest);
      assert r1 == [r1[0]] + r1[1..] && r2 == [r2[0]] + r2[1..];
    }
  }

  lemma LeastUnique(keys: set<string>)
    ensures forall m1, m2 | IsLeast(m1, keys) && IsLeast(m2, keys) :: m1 == m2
  {
    forall m1, m2 | IsLeast(m1, keys) && IsLeast(m2, keys) ensures m1 == m2 {
      if m1 != m2 {
        StrLessAsymmetric(m1, m2);
      }
    }
  }

  /** Kotlin `keys.sorted()` for a set of keys: the least key, then the rest sorted. */
  function SortedKeys(keys: set<string>): (r: seq<string>)
    ensures IsSortedOf(r, keys)
    decreases |keys|
  {
    if keys == {} then []
    else
      HasLeast(keys);
      LeastUnique(keys);
      var m :| IsLeast(m, keys);
      var rest := SortedKeys(keys - {m});
      assert forall j | 0 <= j < |rest| :: StrLess(m, rest[j]) by {
        forall j | 0 <= j < |rest| ensures StrLess(m, rest[j]) {
          assert rest[j] in rest;
        }
      }
      [m] + rest
  }
}
