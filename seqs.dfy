/** The sequence operations the screens use on their collections: Swift's
    `filter` (order kept) and `sorted(by:)` on one integer key. */
module Seqs {

  /** `a` can be obtained from `b` by deleting elements, order kept. */
  predicate IsSubsequence<T(==)>(a: seq<T>, b: seq<T>)
    decreases |b|
  {
    if a == [] then true
    else if b == [] then false
    else if a[0] == b[0] then IsSubsequence(a[1..], b[1..])
    else IsSubsequence(a, b[1..])
  }

  /** `s.filter(p)`: the elements that satisfy `p`, each as often as in `s`, in their order in `s`. */
  function Filter<T(!new)>(s: seq<T>, p: T -> bool): (r: seq<T>)
    ensures forall x :: x in r ==> p(x)
    ensures forall x :: multiset(r)[x] == if p(x) then multiset(s)[x] else 0
    ensures IsSubsequence(r, s)
    decreases |s|
  {
    if s == [] then []
    else
      assert s == [s[0]] + s[1..];
      var rest := Filter(s[1..], p);
      if p(s[0]) then [s[0]] + rest else rest
  }

  lemma {:induction false} FilterAppend<T(!new)>(a: seq<T>, b: seq<T>, p: T -> bool)
    ensures Filter(a + b, p) == Filter(a, p) + Filter(b, p)
    decreases |a|
  {
    if a == [] {
      assert a + b == b;
    } else {
      assert (a + b)[1..] == a[1..] + b;
      FilterAppend(a[1..], b, p);
    }
  }

  /** Nothing in `s` satisfies `p` exactly when the filter is empty. */
  lemma FilterEmpty<T(!new)>(s: seq<T>, p: T -> bool)
    ensures Filter(s, p) == [] <==> forall x :: x in s ==> !p(x)
  {
    var r := Filter(s, p);
    if r != [] {
      assert r[0] in r && multiset(r)[r[0]] > 0;
    } else {
      forall x | x in s ensures !p(x) {
        assert multiset(s)[x] > 0;
      }
    }
  }

  /** `s` is in non-decreasing order of `key`. */
  predicate SortedBy<T>(s: seq<T>, key: T -> int)
  {
    forall i, j :: 0 <= i < j < |s| ==> key(s[i]) <= key(s[j])
  }

  lemma SortedCons<T>(h: T, t: seq<T>, key: T -> int)
    requires SortedBy(t, key)
    requires forall y :: y in t ==> key(h) <= key(y)
    ensures SortedBy([h] + t, key)
  {
    var r := [h] + t;
    forall i, j | 0 <= i < j < |r| ensures key(r[i]) <= key(r[j]) {
      assert r[j] == t[j - 1];
      if i > 0 { assert r[i] == t[i - 1]; }
    }
  }

  function Insert<T(!new)>(x: T, s: seq<T>, key: T -> int): (r: seq<T>)
    requires SortedBy(s, key)
    ensures SortedBy(r, key)
    ensures multiset(r) == multiset(s) + multiset{x}
    ensures |r| == |s| + 1
    decreases |s|
  {
    if s == [] || key(x) <= key(s[0]) then
      SortedCons(x, s, key);
      [x] + s
    else
      var rest := Insert(x, s[1..], key);
      assert s == [s[0]] + s[1..];
      assert forall y :: y in rest ==> key(s[0]) <= key(y) by {
        forall y | y in rest ensures key(s[0]) <= key(y) {
          assert y in multiset(rest);
          if y != x {
            assert y in multiset(s[1..]);
          }
        }
      }
      SortedCons(s[0], rest, key);
      [s[0]] + rest
  }

  /** `s.sorted { key($0) < key($1) }`: a permutation of `s` in non-decreasing
      order of `key`. Which of two elements with equal keys comes first is
      left open by Swift; this insertion sort is one admissible choice. */
  function SortBy<T(!new)>(s: seq<T>, key: T -> int): (r: seq<T>)
    ensures SortedBy(r, key)
    ensures multiset(r) == multiset(s)
    ensures |r| == |s|
    decreases |s|
  {
    if s == [] then []
    else
      assert s == [s[0]] + s[1..];
      Insert(s[0], SortBy(s[1..], key), key)
  }

  predicate Distinct<T(==)>(s: seq<T>)
  {
    forall i, j :: 0 <= i < j < |s| ==> s[i] != s[j]
  }

  /** The tail of a sequence without repetitions has none, and lacks the head. */
  lemma DistinctTail<T>(order: seq<T>)
    requires Distinct(order) && order != []
    ensures Distinct(order[1..]) && order[0] !in order[1..]
  {
    var tail := order[1..];
    forall i, j | 0 <= i < j < |tail| ensures tail[i] != tail[j] {
      assert tail[i] == order[i + 1] && tail[j] == order[j + 1];
    }
    forall j | 0 <= j < |tail| ensures tail[j] != order[0] {
      assert tail[j] == order[j + 1];
    }
  }
}

/** Text matching as the screens' search fields do it. */
module Text {

  /** An upper-case letter of the Latin or Russian alphabet. */
  predicate IsUpper(c: char)
  {
    'A' <= c <= 'Z' || 'А' <= c <= 'Я' || c == 'Ё'
  }

  /** Lower-case for the Latin and Russian alphabets (A–Z, А–Я, Ё): the
      result is never an upper-case letter, and every other character is
      left as it is. */
  function LowerChar(c: char): (d: char)
    ensures !IsUpper(d)
    ensures !IsUpper(c) ==> d == c
    ensures IsUpper(c) ==> d != c
  {
    if 'A' <= c <= 'Z' then (c as int + 32) as char
    else if 'А' <= c <= 'Я' then (c as int + 32) as char
    else if c == 'Ё' then 'ё'
    else c
  }

  /** Lower-casing a text: no upper-case letter remains, every other
      character stays in its place, and each character is folded alone. */
  function Lower(s: string): (r: string)
    ensures |r| == |s|
    ensures forall i :: 0 <= i < |r| ==> !IsUpper(r[i])
    ensures forall i :: 0 <= i < |s| && !IsUpper(s[i]) ==> r[i] == s[i]
    ensures forall i :: 0 <= i < |s| ==> r[i] == LowerChar(s[i])
  {
    seq(|s|, i requires 0 <= i < |s| => LowerChar(s[i]))
  }

  lemma LowerIdempotent(s: string)
    ensures Lower(Lower(s)) == Lower(s)
  {
  }

  /** `needle` occurs as a contiguous piece of `hay`. */
  predicate ContainsPiece(hay: string, needle: string)
  {
    exists i :: 0 <= i <= |hay| - |needle| && needle <= hay[i..]
  }

  /** `hay.localizedCaseInsensitiveContains(needle)`. Like Foundation, an empty
      `needle` is never found. */
  function CaseInsensitiveContains(hay: string, needle: string): (found: bool)
    ensures found ==> needle != [] && |needle| <= |hay|
  {
    needle != [] && ContainsPiece(Lower(hay), Lower(needle))
  }

  /** Searching is insensitive to the case of the search text. */
  lemma SearchIgnoresCase(hay: string, needle: string)
    ensures CaseInsensitiveContains(hay, needle) <==> CaseInsensitiveContains(hay, Lower(needle))
  {
    LowerIdempotent(needle);
  }

  /** A non-empty text occurring in `hay` with the same case is found. */
  lemma ExactOccurrenceFound(hay: string, needle: string, i: int)
    requires needle != [] && 0 <= i <= |hay| - |needle| && needle <= hay[i..]
    ensures CaseInsensitiveContains(hay, needle)
  {
    var lh, ln := Lower(hay), Lower(needle);
    forall k | 0 <= k < |ln| ensures ln[k] == lh[i..][k] {
      assert needle[k] == hay[i..][k] == hay[i + k];
    }
    assert ln <= lh[i..];
  }

  /** Every non-empty text is found in itself, whatever the case of either. */
  lemma TextContainsItself(s: string)
    requires s != []
    ensures CaseInsensitiveContains(s, s)
    ensures CaseInsensitiveContains(Lower(s), s)
  {
    assert Lower(s) <= Lower(s)[0..];
    LowerIdempotent(s);
  }
}
