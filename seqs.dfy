/** The JavaScript array and string operations the storefront relies on
    (`filter`, `some`, `reduce` for sums, `String.prototype.includes`),
    written as recursive functions whose contracts say what they mean. */
module Seqs {

  /** `s.filter(keep)`: the elements of `s` that satisfy `keep`, in their
      original order. */
  function Filter<T(!new)>(s: seq<T>, keep: T -> bool): (r: seq<T>)
    ensures |r| <= |s|
    ensures forall x :: x in r <==> x in s && keep(x)
    ensures IsSubsequence(r, s)
  {
    if s == [] then []
    else
      var rest := Filter(s[1..], keep);
      assert s == [s[0]] + s[1..];
      if keep(s[0]) then [s[0]] + rest else rest
  }

  /** `filter` keeps every occurrence of a kept element and none of a
      dropped one. */
  lemma {:induction false} FilterKeepsEveryOccurrence<T(!new)>(s: seq<T>, keep: T -> bool)
    ensures forall x :: multiset(Filter(s, keep))[x] == if keep(x) then multiset(s)[x] else 0
    decreases |s|
  {
    if s != [] {
      FilterKeepsEveryOccurrence(s[1..], keep);
      assert s == [s[0]] + s[1..];
      assert multiset(s) == multiset{s[0]} + multiset(s[1..]);
      if keep(s[0]) {
        assert multiset(Filter(s, keep)) == multiset{s[0]} + multiset(Filter(s[1..], keep));
      }
    }
  }

  /** `a` can be obtained from `b` by deleting elements, without reordering. */
  predicate IsSubsequence<T(==)>(a: seq<T>, b: seq<T>)
    decreases |b|
  {
    a == [] ||
    (b != [] &&
     ((a[0] == b[0] && IsSubsequence(a[1..], b[1..])) || IsSubsequence(a, b[1..])))
  }

  lemma {:induction false} SubsequenceOfSelf<T>(s: seq<T>)
    ensures IsSubsequence(s, s)
    decreases |s|
  {
    if s != [] {
      SubsequenceOfSelf(s[1..]);
    }
  }

  /** A prefix of a subsequence of `b` is still a subsequence of `b`
      (this is what `.filter(...).slice(0, n)` relies on). */
  lemma {:induction false} PrefixOfSubsequence<T>(a: seq<T>, b: seq<T>, k: nat)
    requires IsSubsequence(a, b)
    requires k <= |a|
    ensures IsSubsequence(a[..k], b)
    decreases |b|
  {
    if k == 0 || a == [] {
      assert a[..k] == [];
    } else if a[0] == b[0] && IsSubsequence(a[1..], b[1..]) {
      PrefixOfSubsequence(a[1..], b[1..], k - 1);
      assert a[..k][0] == b[0] && a[..k][1..] == a[1..][..k - 1];
    } else {
      PrefixOfSubsequence(a, b[1..], k);
    }
  }

  /** No element of `s` occurs twice. */
  predicate Distinct<T(==)>(s: seq<T>)
  {
    forall a, b :: 0 <= a < b < |s| ==> s[a] != s[b]
  }

  /** A prefix of a filter of distinct elements is downward closed: when it
      holds an element, it holds every earlier element that passes the
      filter. */
  lemma {:induction false} FilterPrefixKeepsEarlier<T(!new)>(s: seq<T>, keep: T -> bool, k: nat, i: int, j: int)
    requires Distinct(s)
    requires k <= |Filter(s, keep)|
    requires 0 <= i < j < |s| && keep(s[i]) && s[j] in Filter(s, keep)[..k]
    ensures s[i] in Filter(s, keep)[..k]
    decreases |s|
  {
    var rest := s[1..];
    assert Distinct(rest) by {
      forall a, b | 0 <= a < b < |rest| ensures rest[a] != rest[b] {
        assert rest[a] == s[a + 1] && rest[b] == s[b + 1];
      }
    }
    var r := Filter(s, keep)[..k];
    assert k >= 1;
    if keep(s[0]) {
      assert Filter(s, keep) == [s[0]] + Filter(rest, keep);
      if i > 0 {
        assert r == [s[0]] + Filter(rest, keep)[..k - 1];
        assert s[j] != s[0];
        assert s[j] == rest[j - 1] && s[i] == rest[i - 1];
        FilterPrefixKeepsEarlier(rest, keep, k - 1, i - 1, j - 1);
      } else {
        assert r[0] == s[0];
      }
    } else {
      assert Filter(s, keep) == Filter(rest, keep);
      assert i > 0;
      assert s[j] == rest[j - 1] && s[i] == rest[i - 1];
      FilterPrefixKeepsEarlier(rest, keep, k, i - 1, j - 1);
    }
  }

  /** Filtering the front element away or keeping it is decided by that
      element alone: the rest of the result is the filter of the rest. */
  lemma {:induction false} FilterCons<T(!new)>(x: T, s: seq<T>, keep: T -> bool)
    ensures Filter([x] + s, keep) == (if keep(x) then [x] else []) + Filter(s, keep)
  {
    assert ([x] + s)[1..] == s;
  }

  /** Filtering a concatenation filters each part. */
  lemma {:induction false} FilterAppend<T(!new)>(a: seq<T>, b: seq<T>, keep: T -> bool)
    ensures Filter(a + b, keep) == Filter(a, keep) + Filter(b, keep)
    decreases |a|
  {
    if a != [] {
      assert (a + b)[1..] == a[1..] + b;
      FilterAppend(a[1..], b, keep);
    } else {
      assert a + b == b;
    }
  }

  /** Filters with pointwise-equal predicates give the same result. */
  lemma {:induction false} FilterCongruent<T(!new)>(s: seq<T>, f: T -> bool, g: T -> bool)
    requires forall x :: x in s ==> f(x) == g(x)
    ensures Filter(s, f) == Filter(s, g)
    decreases |s|
  {
    if s != [] {
      assert forall x :: x in s[1..] ==> x in s;
      FilterCongruent(s[1..], f, g);
    }
  }

  /** Filtering with a predicate that holds of every element changes nothing. */
  lemma {:induction false} FilterAll<T(!new)>(s: seq<T>, keep: T -> bool)
    requires forall x :: x in s ==> keep(x)
    ensures Filter(s, keep) == s
    decreases |s|
  {
    if s != [] {
      assert forall x :: x in s[1..] ==> x in s;
      FilterAll(s[1..], keep);
      assert s == [s[0]] + s[1..];
    }
  }

  /** Filtering with a predicate that holds of no element leaves nothing. */
  lemma {:induction false} FilterNone<T(!new)>(s: seq<T>, keep: T -> bool)
    requires forall x :: x in s ==> !keep(x)
    ensures Filter(s, keep) == []
    decreases |s|
  {
    if s != [] {
      assert forall x :: x in s[1..] ==> x in s;
      FilterNone(s[1..], keep);
    }
  }

  /** `s.includes(sub)` for strings: `sub` occurs in `s` at some position. */
  predicate Includes(s: string, sub: string)
    decreases |s|
  {
    sub <= s || (s != [] && Includes(s[1..], sub))
  }

  /** `sub` occurs in `s` starting at index `i`. */
  predicate OccursAt(s: string, sub: string, i: int)
  {
    0 <= i && i + |sub| <= |s| && s[i..i + |sub|] == sub
  }

  lemma {:induction false} IncludesAt(s: string, sub: string, i: nat)
    requires OccursAt(s, sub, i)
    ensures Includes(s, sub)
    decreases i
  {
    if i > 0 {
      assert s[1..][i - 1..i - 1 + |sub|] == s[i..i + |sub|];
      IncludesAt(s[1..], sub, i - 1);
    } else {
      assert sub <= s;
    }
  }

  /** `Includes` means exactly what `includes` promises: an occurrence at
      some index. */
  lemma {:induction false} IncludesMeansOccurrence(s: string, sub: string)
    ensures Includes(s, sub) <==> exists i :: OccursAt(s, sub, i)
    decreases |s|
  {
    if Includes(s, sub) {
      if sub <= s {
        assert OccursAt(s, sub, 0);
      } else {
        IncludesMeansOccurrence(s[1..], sub);
        var i :| OccursAt(s[1..], sub, i);
        assert s[1..][i..i + |sub|] == s[i + 1..i + 1 + |sub|];
        assert OccursAt(s, sub, i + 1);
      }
    }
    if exists i :: OccursAt(s, sub, i) {
      var i :| OccursAt(s, sub, i);
      IncludesAt(s, sub, i);
    }
  }

  /** The decimal rendering of a natural number, as `${n}` produces it:
      digits only, and no leading zero unless the number is 0. */
  function Decimal(n: nat): (r: string)
    ensures |r| >= 1
    ensures forall i :: 0 <= i < |r| ==> '0' <= r[i] <= '9'
    ensures r[0] == '0' ==> n == 0
    decreases n
  {
    var digit := [('0' as int + n % 10) as char];
    if n < 10 then digit else Decimal(n / 10) + digit
  }

  /** The number a string of decimal digits denotes, read left to right:
      each further digit multiplies the value so far by ten and adds
      itself. */
  function DigitsValue(s: string): int
  {
    if s == [] then 0
    else 10 * DigitsValue(s[..|s| - 1]) + (s[|s| - 1] as int - '0' as int)
  }

  /** `Decimal(n)` denotes `n`. */
  lemma {:induction false} DecimalDenotes(n: nat)
    ensures DigitsValue(Decimal(n)) == n
    decreases n
  {
    var digit := [('0' as int + n % 10) as char];
    if n < 10 {
      assert Decimal(n) == digit;
      assert Decimal(n)[..0] == [];
    } else {
      DecimalDenotes(n / 10);
      var r := Decimal(n);
      assert r == Decimal(n / 10) + digit;
      assert r[..|r| - 1] == Decimal(n / 10);
    }
  }

  /** Different clock readings render differently. */
  lemma {:induction false} DecimalInjective(a: nat, b: nat)
    requires Decimal(a) == Decimal(b)
    ensures a == b
  {
    DecimalDenotes(a);
    DecimalDenotes(b);
  }
}
