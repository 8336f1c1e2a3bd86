/** Small value-level helpers shared by every other module: optional values,
    the outcome of a call across the network, the JavaScript string and array
    operations the application relies on (trim, toLowerCase, includes, join,
    filter, Set insertion order) and decimal rendering of numbers. */
module Util {

  /** A value that may be absent (`undefined` or `null` in the application). */
  datatype Option<+T> = None | Some(value: T) {
    function GetOr(default: T): T {
      if Some? then value else default
    }
  }

  /** The outcome of a call whose result the model does not compute: a
      network request, a language-model generation, a JSON parse or a
      callback. `Fail` stands for every thrown error and rejected promise. */
  datatype Outcome<+T> = Ok(value: T) | Fail

  // ---------------------------------------------------------------------
  // Whitespace and `String.prototype.trim`

  /** The characters `trim` removes: ASCII whitespace, NBSP, BOM and the
      Unicode line separators. */
  predicate IsSpace(c: char) {
    c == ' ' || c == '\t' || c == '\n' || c == '\r' || c == '\U{B}' || c == '\U{C}'
    || c == '\U{A0}' || c == '\U{FEFF}' || c == '\U{2028}' || c == '\U{2029}'
  }

  /** `!s.trim()`: the string is empty once surrounding whitespace is removed. */
  predicate IsBlank(s: string) {
    forall i :: 0 <= i < |s| ==> IsSpace(s[i])
  }

  // ---------------------------------------------------------------------
  // `toLowerCase`, restricted to ASCII letters

  function LowerChar(c: char): (r: char)
    ensures 'A' <= c <= 'Z' ==> r != c
    ensures !('A' <= c <= 'Z') ==> r == c
    ensures !('A' <= r <= 'Z')
  {
    if 'A' <= c <= 'Z' then (c as int + 32) as char else c
  }

  function Lower(s: string): (r: string)
    ensures |r| == |s|
    ensures forall i :: 0 <= i < |s| ==> r[i] == LowerChar(s[i])
  {
    seq(|s|, i requires 0 <= i < |s| => LowerChar(s[i]))
  }

  lemma LowerIdempotent(s: string)
    ensures Lower(Lower(s)) == Lower(s)
  {
  }

  lemma LowerAppend(a: string, b: string)
    ensures Lower(a + b) == Lower(a) + Lower(b)
  {
  }

  // ---------------------------------------------------------------------
  // `String.prototype.includes`

  /** `s.includes(q)`: `q` occurs in `s` as a contiguous piece. */
  predicate Includes(s: string, q: string)
    decreases |s|
  {
    q <= s || (|s| > 0 && Includes(s[1..], q))
  }

  lemma {:induction false} IncludesEmpty(s: string)
    ensures Includes(s, "")
  {
  }

  /** An occurrence at position `i` is found by `Includes`. */
  lemma {:induction false} IncludesAt(s: string, q: string, i: nat)
    requires i + |q| <= |s| && s[i..i + |q|] == q
    ensures Includes(s, q)
    decreases i
  {
    if i == 0 {
      assert s[..|q|] == q;
    } else {
      assert s[1..][i - 1..i - 1 + |q|] == s[i..i + |q|];
      IncludesAt(s[1..], q, i - 1);
    }
  }

  // ---------------------------------------------------------------------
  // `Array.prototype.join` and its inverse on a one-character separator

  function Join(lines: seq<string>, sep: string): string
    decreases |lines|
  {
    if |lines| == 0 then ""
    else if |lines| == 1 then lines[0]
    else lines[0] + sep + Join(lines[1..], sep)
  }

  /** `s.split(c)`: the pieces between occurrences of `c`; never empty. */
  function Split(s: string, c: char): (r: seq<string>)
    ensures |r| >= 1
    decreases |s|
  {
    if |s| == 0 then [""]
    else if s[0] == c then [""] + Split(s[1..], c)
    else
      var rest := Split(s[1..], c);
      [[s[0]] + rest[0]] + rest[1..]
  }

  /** A piece that does not contain `c` splits as itself, whatever follows
      the next `c`. */
  lemma {:induction false} SplitPiece(a: string, c: char, tail: Option<string>)
    requires c !in a
    ensures tail.None? ==> Split(a, c) == [a]
    ensures tail.Some? ==> Split(a + [c] + tail.value, c) == [a] + Split(tail.value, c)
    decreases |a|
  {
    if |a| == 0 {
      if tail.Some? {
        assert a + [c] + tail.value == [c] + tail.value;
        assert ([c] + tail.value)[1..] == tail.value;
      }
    } else {
      SplitPiece(a[1..], c, tail);
      if tail.Some? {
        var s := a + [c] + tail.value;
        assert s[0] == a[0] && s[1..] == a[1..] + [c] + tail.value;
        assert [a[0]] + a[1..] == a;
      } else {
        assert [a[0]] + a[1..] == a;
      }
    }
  }

  /** Splitting a joined text gives back its lines when no line contains the
      separator: the join loses nothing. */
  lemma {:induction false} SplitJoin(lines: seq<string>, c: char)
    requires |lines| >= 1
    requires forall k :: 0 <= k < |lines| ==> c !in lines[k]
    ensures Split(Join(lines, [c]), c) == lines
    decreases |lines|
  {
    if |lines| == 1 {
      SplitPiece(lines[0], c, None);
    } else {
      SplitJoin(lines[1..], c);
      SplitPiece(lines[0], c, Some(Join(lines[1..], [c])));
      assert [lines[0]] + lines[1..] == lines;
    }
  }

  // ---------------------------------------------------------------------
  // `Array.prototype.filter`

  function Filter<T(!new)>(s: seq<T>, keep: T -> bool): (r: seq<T>)
    ensures |r| <= |s|
    ensures forall x :: x in r <==> x in s && keep(x)
    decreases |s|
  {
    if |s| == 0 then []
    else if keep(s[0]) then [s[0]] + Filter(s[1..], keep)
    else Filter(s[1..], keep)
  }

  /** Filtering works piecewise, so it keeps the relative order of what it keeps. */
  lemma {:induction false} FilterConcat<T(!new)>(a: seq<T>, b: seq<T>, keep: T -> bool)
    ensures Filter(a + b, keep) == Filter(a, keep) + Filter(b, keep)
    decreases |a|
  {
    if |a| > 0 {
      assert (a + b)[1..] == a[1..] + b;
      FilterConcat(a[1..], b, keep);
    } else {
      assert a + b == b;
    }
  }

  /** `r` is `s` with some elements left out, the rest in their order. */
  predicate Subsequence<T(==)>(r: seq<T>, s: seq<T>)
    decreases |s|
  {
    if |r| == 0 then true
    else if |s| == 0 then false
    else (r[0] == s[0] && Subsequence(r[1..], s[1..])) || Subsequence(r, s[1..])
  }

  /** Every sequence is a subsequence of itself. */
  lemma {:induction false} SubsequenceRefl<T>(s: seq<T>)
    ensures Subsequence(s, s)
    decreases |s|
  {
    if |s| > 0 {
      SubsequenceRefl(s[1..]);
    }
  }

  /** What a filter keeps stays in the order of the input. */
  lemma {:induction false} FilterSubsequence<T(!new)>(s: seq<T>, keep: T -> bool)
    ensures Subsequence(Filter(s, keep), s)
    decreases |s|
  {
    if |s| > 0 {
      FilterSubsequence(s[1..], keep);
    }
  }

  /** The complement of a filter test. */
  function Not<T>(keep: T -> bool): T -> bool {
    x => !keep(x)
  }

  /** A filter and its complement together hold every element once. */
  lemma {:induction false} FilterPartition<T(!new)>(s: seq<T>, keep: T -> bool)
    ensures |Filter(s, keep)| + |Filter(s, Not(keep))| == |s|
    ensures multiset(Filter(s, keep)) + multiset(Filter(s, Not(keep))) == multiset(s)
    decreases |s|
  {
    if |s| > 0 {
      FilterPartition(s[1..], keep);
      assert [s[0]] + s[1..] == s;
    }
  }

  /** A filter that keeps every element returns the input unchanged. */
  lemma {:induction false} FilterAll<T(!new)>(s: seq<T>, keep: T -> bool)
    requires forall k :: 0 <= k < |s| ==> keep(s[k])
    ensures Filter(s, keep) == s
    decreases |s|
  {
    if |s| > 0 {
      FilterAll(s[1..], keep);
      assert [s[0]] + s[1..] == s;
    }
  }

  /** Two predicates that agree on the elements give the same filter. */
  lemma {:induction false} FilterCongruent<T(!new)>(s: seq<T>, f: T -> bool, g: T -> bool)
    requires forall k :: 0 <= k < |s| ==> f(s[k]) == g(s[k])
    ensures Filter(s, f) == Filter(s, g)
    decreases |s|
  {
    if |s| > 0 {
      FilterCongruent(s[1..], f, g);
    }
  }

  predicate NoDuplicates<T(==)>(s: seq<T>) {
    forall i, j :: 0 <= i < j < |s| ==> s[i] != s[j]
  }

  lemma {:induction false} FilterNoDuplicates<T(!new)>(s: seq<T>, keep: T -> bool)
    requires NoDuplicates(s)
    ensures NoDuplicates(Filter(s, keep))
    decreases |s|
  {
    if |s| > 0 {
      FilterNoDuplicates(s[1..], keep);
    }
  }

  // ---------------------------------------------------------------------
  // A JavaScript `Set<string>`: duplicate-free, in insertion order

  /** `set.add(x)`: appends `x` unless it is already there. */
  function SetAdd<T(==,!new)>(s: seq<T>, x: T): (r: seq<T>)
    ensures x in r
    ensures forall y :: y in r <==> y in s || y == x
    ensures NoDuplicates(s) ==> NoDuplicates(r)
  {
    if x in s then s else s + [x]
  }

  /** The test `y !== x`. */
  function Except<T(==)>(x: T): T -> bool {
    y => y != x
  }

  /** `set.delete(x)`: removes `x`, keeping the others in order. */
  function SetDelete<T(==,!new)>(s: seq<T>, x: T): (r: seq<T>)
    ensures x !in r
    ensures forall y :: y in r <==> y in s && y != x
    ensures NoDuplicates(s) ==> NoDuplicates(r)
  {
    FilterNoDuplicatesIf(s, Except(x));
    Filter(s, Except(x))
  }

  lemma FilterNoDuplicatesIf<T(!new)>(s: seq<T>, keep: T -> bool)
    ensures NoDuplicates(s) ==> NoDuplicates(Filter(s, keep))
  {
    if NoDuplicates(s) {
      FilterNoDuplicates(s, keep);
    }
  }

  /** `new Set(xs)`: the first occurrence of each element, in order. */
  function Dedup<T(==,!new)>(xs: seq<T>): (r: seq<T>)
    ensures NoDuplicates(r)
    ensures forall y :: y in r <==> y in xs
    decreases |xs|
  {
    if |xs| == 0 then [] else SetAdd(Dedup(xs[..|xs| - 1]), xs[|xs| - 1])
  }

  // ---------------------------------------------------------------------
  // `Number.prototype.toString` on integers

  function DigitChar(d: nat): char
    requires d < 10
  {
    "0123456789"[d]
  }

  function NatToString(n: nat): (r: string)
    ensures |r| >= 1
    decreases n
  {
    if n < 10 then [DigitChar(n)] else NatToString(n / 10) + [DigitChar(n % 10)]
  }

  function IntToString(n: int): (r: string)
    ensures |r| >= 1
  {
    if n < 0 then "-" + NatToString(-n) else NatToString(n)
  }

  // ---------------------------------------------------------------------

  function Max(a: int, b: int): (r: int)
    ensures r >= a && r >= b && (r == a || r == b)
  {
    if a >= b then a else b
  }
}
