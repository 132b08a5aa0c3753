/** The few Python string and list primitives the solvers are written with:
    `str(n)` for a natural number, `s.find(sub) != -1`, slicing with Python's
    clamping and negative indices, and the stable `sorted(xs, key=len)`. */
module PyStr {

  /** The decimal digit character for `d`. */
  function DigitChar(d: nat): (c: char)
    requires d < 10
    ensures '0' <= c <= '9'
  {
    (48 + d) as char
  }

  /** The value of a decimal digit character (the inverse of `DigitChar`). */
  function DigitValue(c: char): (d: nat)
    requires '0' <= c <= '9'
    ensures d < 10 && DigitChar(d) == c
  {
    c as int - 48
  }

  predicate IsDigits(s: string) {
    forall i :: 0 <= i < |s| ==> '0' <= s[i] <= '9'
  }

  /** Python's `str(n)` for a natural number: its decimal digits, without leading zeros. */
  function Str(n: nat): (s: string)
    ensures |s| >= 1 && IsDigits(s)
    ensures (n < 10) == (|s| == 1)
    decreases n
  {
    if n < 10 then [DigitChar(n)] else Str(n / 10) + [DigitChar(n % 10)]
  }

  /** Python's `int(s)` on a non-empty string of decimal digits. */
  function ParseNat(s: string): nat
    requires |s| >= 1 && IsDigits(s)
    decreases |s|
  {
    if |s| == 1 then DigitValue(s[0])
    else ParseNat(s[..|s| - 1]) * 10 + DigitValue(s[|s| - 1])
  }

  /** `int(str(n)) == n`. */
  lemma {:induction false} ParseStr(n: nat)
    ensures ParseNat(Str(n)) == n
    decreases n
  {
    if n >= 10 {
      var s := Str(n);
      assert s[..|s| - 1] == Str(n / 10);
      ParseStr(n / 10);
    }
  }

  /** Distinct numbers have distinct decimal strings. */
  lemma StrInjective(a: nat, b: nat)
    ensures Str(a) == Str(b) <==> a == b
  {
    if Str(a) == Str(b) {
      ParseStr(a);
      ParseStr(b);
    }
  }

  /** Python's `s.find(sub) != -1`: `sub` occurs in `s` (the empty string occurs everywhere). */
  predicate Contains(s: string, sub: string)
    decreases |s|
  {
    (|sub| <= |s| && s[..|sub|] == sub) || (|s| > 0 && Contains(s[1..], sub))
  }

  /** `sub` occurs in `s` starting at position `i`. */
  predicate OccursAt(s: string, sub: string, i: int) {
    0 <= i <= |s| - |sub| && s[i..i + |sub|] == sub
  }

  /** `Contains` agrees with the positional definition of a substring occurrence. */
  lemma {:induction false} ContainsAt(s: string, sub: string)
    ensures Contains(s, sub) <==> exists i :: OccursAt(s, sub, i)
    decreases |s|
  {
    if exists i :: OccursAt(s, sub, i) {
      var i :| OccursAt(s, sub, i);
      if i > 0 {
        assert OccursAt(s[1..], sub, i - 1) by {
          assert s[1..][i - 1..i - 1 + |sub|] == s[i..i + |sub|];
        }
        ContainsAt(s[1..], sub);
      }
    }
    if Contains(s, sub) {
      if |sub| <= |s| && s[..|sub|] == sub {
        assert OccursAt(s, sub, 0);
      } else {
        ContainsAt(s[1..], sub);
        var i :| OccursAt(s[1..], sub, i);
        assert s[1..][i..i + |sub|] == s[i + 1..i + 1 + |sub|];
        assert OccursAt(s, sub, i + 1);
      }
    }
  }

  /** A Python index or slice bound resolved against a length `n`: negative
      values count from the end, and the result is clamped to 0..n. */
  function PyIndex(i: int, n: nat): (j: nat)
    ensures j <= n
    ensures 0 <= i <= n ==> j == i
    ensures -(n as int) <= i < 0 ==> j == n + i
  {
    if i < 0 then (if i + n < 0 then 0 else i + n) else if i > n then n else i
  }

  /** Python's `s[start:stop]`. */
  function PySlice(s: string, start: int, stop: int): (r: string)
    ensures |r| <= |s|
    ensures 0 <= start <= stop <= |s| ==> r == s[start..stop]
  {
    var a, b := PyIndex(start, |s|), PyIndex(stop, |s|);
    if a < b then s[a..b] else []
  }

  predicate NonDecreasingLength(s: seq<string>) {
    forall i, j :: 0 <= i < j < |s| ==> |s[i]| <= |s[j]|
  }

  /** Two lists ordered by length, the first no longer than `n` and the
      second no shorter, concatenate to a list ordered by length. */
  lemma AppendOrdered(a: seq<string>, b: seq<string>, n: nat)
    requires NonDecreasingLength(a) && NonDecreasingLength(b)
    requires forall i :: 0 <= i < |a| ==> |a[i]| <= n
    requires forall j :: 0 <= j < |b| ==> n <= |b[j]|
    ensures NonDecreasingLength(a + b)
  {
    var r := a + b;
    forall i, j | 0 <= i < j < |r| ensures |r[i]| <= |r[j]| {
      if j < |a| {
        assert r[i] == a[i] && r[j] == a[j];
      } else if i >= |a| {
        assert r[i] == b[i - |a|] && r[j] == b[j - |a|];
      } else {
        assert r[i] == a[i] && r[j] == b[j - |a|];
      }
    }
  }

  /** Puts `x` after every element of `sorted` that is not longer than it. */
  function InsertByLength(sorted: seq<string>, x: string): (r: seq<string>)
    ensures multiset(r) == multiset(sorted) + multiset{x}
  {
    if sorted == [] then [x]
    else if |x| < |sorted[0]| then [x] + sorted
    else
      assert sorted == [sorted[0]] + sorted[1..];
      [sorted[0]] + InsertByLength(sorted[1..], x)
  }

  /** Inserting into a list ordered by length keeps it ordered by length. */
  lemma {:induction false} InsertByLengthOrdered(sorted: seq<string>, x: string)
    requires NonDecreasingLength(sorted)
    ensures NonDecreasingLength(InsertByLength(sorted, x))
  {
    if sorted == [] {
    } else if |x| < |sorted[0]| {
      ConsOrdered(x, sorted);
    } else {
      InsertByLengthOrdered(sorted[1..], x);
      InsertByLengthAtLeast(sorted[1..], x, |sorted[0]|);
      ConsOrdered(sorted[0], InsertByLength(sorted[1..], x));
    }
  }

  /** A string no longer than the first of a list ordered by length can go in front. */
  lemma ConsOrdered(y: string, s: seq<string>)
    requires NonDecreasingLength(s)
    requires forall j :: 0 <= j < |s| ==> |y| <= |s[j]|
    ensures NonDecreasingLength([y] + s)
  {
    var r := [y] + s;
    forall i, j | 0 <= i < j < |r| ensures |r[i]| <= |r[j]| {
      assert r[j] == s[j - 1];
      if i > 0 {
        assert r[i] == s[i - 1];
      }
    }
  }

  /** Inserting a string of length at least `n` among strings of length at
      least `n` gives strings of length at least `n`. */
  lemma InsertByLengthAtLeast(sorted: seq<string>, x: string, n: nat)
    requires forall i :: 0 <= i < |sorted| ==> n <= |sorted[i]|
    requires n <= |x|
    ensures forall j :: 0 <= j < |InsertByLength(sorted, x)| ==> n <= |InsertByLength(sorted, x)[j]|
  {
    var rest := InsertByLength(sorted, x);
    forall j | 0 <= j < |rest| ensures n <= |rest[j]| {
      var y := rest[j];
      assert y in multiset(rest);
      if y != x {
        assert y in multiset(sorted);
        var k :| 0 <= k < |sorted| && sorted[k] == y;
      }
    }
  }

  /** The elements of `xs` of length `n`, in their order in `xs`. */
  function OfLength(xs: seq<string>, n: nat): seq<string> {
    if xs == [] then []
    else (if |xs[0]| == n then [xs[0]] else []) + OfLength(xs[1..], n)
  }

  /** Picking the elements of one length distributes over concatenation. */
  lemma {:induction false} OfLengthAppend(xs: seq<string>, ys: seq<string>, n: nat)
    ensures OfLength(xs + ys, n) == OfLength(xs, n) + OfLength(ys, n)
  {
    if xs == [] {
      assert xs + ys == ys;
    } else {
      assert (xs + ys)[1..] == xs[1..] + ys;
      OfLengthAppend(xs[1..], ys, n);
    }
  }

  /** A list with no element of length `n` has none to pick. */
  lemma {:induction false} OfLengthNone(xs: seq<string>, n: nat)
    requires forall i :: 0 <= i < |xs| ==> |xs[i]| != n
    ensures OfLength(xs, n) == []
  {
    if xs != [] {
      OfLengthNone(xs[1..], n);
    }
  }

  /** Picking the elements of one length from a list with a head. */
  lemma OfLengthCons(y: string, ys: seq<string>, n: nat)
    ensures OfLength([y] + ys, n) == (if |y| == n then [y] else []) + OfLength(ys, n)
  {
    assert ([y] + ys)[1..] == ys;
  }

  /** `x` put in front of a list ordered by length whose elements are all
      longer than `x` comes after nothing of its own length. */
  lemma InsertFrontStable(sorted: seq<string>, x: string, n: nat)
    requires NonDecreasingLength(sorted) && sorted != [] && |x| < |sorted[0]|
    ensures OfLength([x] + sorted, n) == OfLength(sorted, n) + (if |x| == n then [x] else [])
  {
    OfLengthCons(x, sorted, n);
    if |x| == n {
      forall i | 0 <= i < |sorted| ensures |sorted[i]| != n {
        assert |sorted[0]| <= |sorted[i]|;
      }
      OfLengthNone(sorted, n);
    }
  }

  /** Keeping the head of `sorted` in front of an insertion into its tail
      keeps the stability of that insertion. */
  lemma InsertBehindStable(sorted: seq<string>, rest: seq<string>, x: string, n: nat)
    requires sorted != []
    requires OfLength(rest, n) == OfLength(sorted[1..], n) + (if |x| == n then [x] else [])
    ensures OfLength([sorted[0]] + rest, n) == OfLength(sorted, n) + (if |x| == n then [x] else [])
  {
    var head, tail := sorted[0], sorted[1..];
    assert sorted == [head] + tail;
    OfLengthCons(head, rest, n);
    OfLengthCons(head, tail, n);
    var h, t := (if |head| == n then [head] else []), (if |x| == n then [x] else []);
    assert h + (OfLength(tail, n) + t) == (h + OfLength(tail, n)) + t;
  }

  /** The tail of a list ordered by length is ordered by length. */
  lemma NonDecreasingTail(sorted: seq<string>)
    requires NonDecreasingLength(sorted) && sorted != []
    ensures NonDecreasingLength(sorted[1..])
  {
    var tail := sorted[1..];
    forall i, j | 0 <= i < j < |tail| ensures |tail[i]| <= |tail[j]| {
      assert tail[i] == sorted[i + 1] && tail[j] == sorted[j + 1];
    }
  }

  /** Inserting `x` into a list ordered by length puts it after every
      element of its own length: the elements of each length keep their
      order, and `x` comes last among those of length `|x|`. */
  lemma {:induction false} InsertByLengthStable(sorted: seq<string>, x: string, n: nat)
    requires NonDecreasingLength(sorted)
    ensures OfLength(InsertByLength(sorted, x), n) == OfLength(sorted, n) + (if |x| == n then [x] else [])
  {
    if sorted == [] {
      OfLengthCons(x, [], n);
    } else if |x| < |sorted[0]| {
      assert InsertByLength(sorted, x) == [x] + sorted;
      InsertFrontStable(sorted, x, n);
    } else {
      NonDecreasingTail(sorted);
      InsertByLengthStable(sorted[1..], x, n);
      InsertBehindStable(sorted, InsertByLength(sorted[1..], x), x, n);
    }
  }

  /** Python's stable `sorted(xs, key=lambda x: len(x))`: a permutation of
      `xs` ordered by length in which the elements of each length keep their
      order in `xs`. */
  function SortedByLength(xs: seq<string>): (r: seq<string>)
    ensures multiset(r) == multiset(xs)
    ensures NonDecreasingLength(r)
    ensures forall n: nat :: OfLength(r, n) == OfLength(xs, n)
  {
    if xs == [] then []
    else
      var prefix, last := xs[..|xs| - 1], xs[|xs| - 1];
      assert xs == prefix + [last];
      var sortedPrefix := SortedByLength(prefix);
      InsertByLengthOrdered(sortedPrefix, last);
      var r := InsertByLength(sortedPrefix, last);
      assert forall n: nat :: OfLength(r, n) == OfLength(xs, n) by {
        forall n: nat ensures OfLength(r, n) == OfLength(xs, n) {
          InsertByLengthStable(sortedPrefix, last, n);
          OfLengthAppend(prefix, [last], n);
          assert OfLength([last], n) == (if |last| == n then [last] else []) by {
            assert [last][1..] == [];
          }
        }
      }
      r
  }

  /** A prefix one element longer is the shorter prefix and that element. */
  lemma PrefixStep<T>(s: seq<T>, i: int)
    requires 0 <= i < |s|
    ensures s[..i + 1][..i] == s[..i] && s[..i + 1][i] == s[i] && |s[..i + 1]| == i + 1
  {
  }

  /** The prefix as long as the sequence is the sequence. */
  lemma WholePrefix<T>(s: seq<T>, i: int)
    requires i == |s|
    ensures s[..i] == s
  {
  }

  /** Moving one element from the end of the left part to the front of the right. */
  lemma SnocThenCons<T>(a: seq<T>, x: T, b: seq<T>)
    ensures (a + [x]) + b == a + ([x] + b)
  {
  }

  predicate Distinct<T(==)>(s: seq<T>) {
    forall i, j :: 0 <= i < j < |s| ==> s[i] != s[j]
  }

  /** A sequence with the same elements as a duplicate-free one, counted with
      multiplicity, is duplicate-free too. */
  lemma DistinctByMultiset<T>(s: seq<T>, t: seq<T>)
    requires Distinct(s) && multiset(s) == multiset(t)
    ensures Distinct(t)
  {
    forall i, j | 0 <= i < j < |t| ensures t[i] != t[j] {
      if t[i] == t[j] {
        assert multiset(t)[t[i]] >= 2 by {
          assert t == t[..i] + [t[i]] + t[i + 1..j] + [t[j]] + t[j + 1..];
        }
        MultiplicityOfDistinct(s, t[i]);
      }
    }
  }

  lemma {:induction false} MultiplicityOfDistinct<T>(s: seq<T>, x: T)
    requires Distinct(s)
    ensures multiset(s)[x] <= 1
  {
    if s != [] {
      var last := s[|s| - 1];
      assert s == s[..|s| - 1] + [last];
      MultiplicityOfDistinct(s[..|s| - 1], x);
      if x == last {
        assert x !in s[..|s| - 1];
      }
    }
  }
}
