/** The sorts that Filter.Equal applies: slices.Sort on string slices and
    slices.SortFunc with a "descending by one string key" comparison. */
module Sorting {

  /** Go's `<` on strings. Go compares the UTF-8 bytes; UTF-8 preserves the
      order of code points, so this is lexicographic order on characters. */
  predicate Less(a: string, b: string)
    decreases |a|
  {
    if |a| == 0 then |b| > 0
    else if |b| == 0 then false
    else if a[0] != b[0] then a[0] < b[0]
    else Less(a[1..], b[1..])
  }

  lemma {:induction false} LessIrreflexive(a: string)
    ensures !Less(a, a)
    decreases |a|
  {
    if |a| > 0 {
      LessIrreflexive(a[1..]);
    }
  }

  lemma {:induction false} LessTransitive(a: string, b: string, c: string)
    requires Less(a, b) && Less(b, c)
    ensures Less(a, c)
    decreases |a|
  {
    if |a| > 0 && a[0] == b[0] && b[0] == c[0] {
      LessTransitive(a[1..], b[1..], c[1..]);
    }
  }

  lemma {:induction false} LessTrichotomy(a: string, b: string)
    ensures a == b || Less(a, b) || Less(b, a)
    decreases |a|
  {
    if |a| > 0 && |b| > 0 && a[0] == b[0] {
      LessTrichotomy(a[1..], b[1..]);
      if a[1..] == b[1..] {
        assert a == [a[0]] + a[1..] && b == [b[0]] + b[1..];
      }
    }
  }

  lemma LessAsymmetric(a: string, b: string)
    requires Less(a, b)
    ensures !Less(b, a)
  {
    if Less(b, a) {
      LessTransitive(a, b, a);
      LessIrreflexive(a);
    }
  }

  /** `!Less(b, a)`, that is a <= b, is transitive. */
  lemma LeqTransitive(a: string, b: string, c: string)
    requires !Less(b, a) && !Less(c, b)
    ensures !Less(c, a)
  {
    LessTrichotomy(a, b);
    if Less(c, a) && a != b {
      LessTransitive(c, a, b);
    }
  }

  /** Ascending order, equal strings allowed side by side. */
  predicate Sorted(s: seq<string>) {
    forall i, j :: 0 <= i < j < |s| ==> !Less(s[j], s[i])
  }

  /** One step of insertion sort: `x` moves left past every larger element. */
  function Insert(s: seq<string>, x: string): seq<string> {
    if |s| == 0 then [x]
    else if Less(x, s[|s| - 1]) then Insert(s[..|s| - 1], x) + [s[|s| - 1]]
    else s + [x]
  }

  lemma {:induction false} InsertPermutes(s: seq<string>, x: string)
    ensures multiset(Insert(s, x)) == multiset(s) + multiset{x}
  {
    if |s| > 0 && Less(x, s[|s| - 1]) {
      InsertPermutes(s[..|s| - 1], x);
      assert s == s[..|s| - 1] + [s[|s| - 1]];
    }
  }

  lemma {:induction false} InsertSorted(s: seq<string>, x: string)
    requires Sorted(s)
    ensures Sorted(Insert(s, x))
  {
    if |s| > 0 {
      var last := s[|s| - 1];
      if Less(x, last) {
        var p := s[..|s| - 1];
        InsertSorted(p, x);
        InsertPermutes(p, x);
        var r := Insert(p, x);
        forall i | 0 <= i < |r|
          ensures !Less(last, r[i])
        {
          assert r[i] in multiset(r);
          if r[i] == x {
            LessAsymmetric(x, last);
          } else {
            assert r[i] in multiset(p);
          }
        }
      } else {
        forall i | 0 <= i < |s|
          ensures !Less(x, s[i])
        {
          if i < |s| - 1 {
            LeqTransitive(s[i], last, x);
          }
        }
      }
    }
  }

  /** slices.Sort on a []string: an ascending permutation. Go's sort is not
      insertion sort, but any two ascending permutations are equal
      (SortedUnique), so the result is the same. */
  function SortStrings(s: seq<string>): (r: seq<string>)
    ensures multiset(r) == multiset(s)
    ensures Sorted(r)
  {
    if |s| == 0 then []
    else
      var p := SortStrings(s[..|s| - 1]);
      InsertPermutes(p, s[|s| - 1]);
      InsertSorted(p, s[|s| - 1]);
      assert s == s[..|s| - 1] + [s[|s| - 1]];
      Insert(p, s[|s| - 1])
  }

  /** The last element of an ascending list is at least every element. */
  lemma LastIsLargest(x: seq<string>, v: string)
    requires Sorted(x) && v in multiset(x)
    ensures !Less(x[|x| - 1], v)
  {
    var k :| 0 <= k < |x| && x[k] == v;
    if k == |x| - 1 {
      LessIrreflexive(v);
    }
  }

  lemma DropLast(x: seq<string>)
    requires |x| > 0
    ensures multiset(x[..|x| - 1]) == multiset(x) - multiset{x[|x| - 1]}
  {
    assert x == x[..|x| - 1] + [x[|x| - 1]];
  }

  lemma SortedPrefix(x: seq<string>)
    requires Sorted(x) && |x| > 0
    ensures Sorted(x[..|x| - 1])
  {
  }

  /** The ascending permutation of a multiset of strings is unique. */
  lemma {:induction false} SortedUnique(x: seq<string>, y: seq<string>)
    requires Sorted(x) && Sorted(y) && multiset(x) == multiset(y)
    ensures x == y
    decreases |x|
  {
    assert |x| == |multiset(x)| == |y|;
    if |x| > 0 {
      var n := |x|;
      assert x[n - 1] in multiset(y) && y[n - 1] in multiset(x);
      LastIsLargest(y, x[n - 1]);
      LastIsLargest(x, y[n - 1]);
      LessTrichotomy(x[n - 1], y[n - 1]);
      assert x[n - 1] == y[n - 1];
      DropLast(x);
      DropLast(y);
      SortedPrefix(x);
      SortedPrefix(y);
      SortedUnique(x[..n - 1], y[..n - 1]);
      assert x == x[..n - 1] + [x[n - 1]] && y == y[..n - 1] + [y[n - 1]];
    }
  }

  /** Sorting depends only on the multiset of the input: lists that are
      permutations of each other sort to the same list. */
  lemma SortStringsPermutation(a: seq<string>, b: seq<string>)
    requires multiset(a) == multiset(b)
    ensures SortStrings(a) == SortStrings(b)
  {
    SortedUnique(SortStrings(a), SortStrings(b));
  }

  /** Sorting a sorted list changes nothing. */
  lemma SortStringsOfSorted(s: seq<string>)
    requires Sorted(s)
    ensures SortStrings(s) == s
  {
    SortedUnique(SortStrings(s), s);
  }

  /** Descending by `key`, equal keys allowed side by side. */
  ghost predicate SortedByKeyDesc<T>(s: seq<T>, key: T -> string) {
    forall i, j :: 0 <= i < j < |s| ==> !Less(key(s[i]), key(s[j]))
  }

  /** One step of Go's insertion sort (used by slices.SortFunc for short
      slices) under the comparison "larger key first": `x` moves left only
      past elements whose key is strictly smaller, so equal keys keep their
      relative order. */
  function InsertByKeyDesc<T>(s: seq<T>, x: T, key: T -> string): seq<T> {
    if |s| == 0 then [x]
    else if Less(key(s[|s| - 1]), key(x)) then InsertByKeyDesc(s[..|s| - 1], x, key) + [s[|s| - 1]]
    else s + [x]
  }

  lemma {:induction false} InsertByKeyDescPermutes<T>(s: seq<T>, x: T, key: T -> string)
    ensures multiset(InsertByKeyDesc(s, x, key)) == multiset(s) + multiset{x}
  {
    if |s| > 0 && Less(key(s[|s| - 1]), key(x)) {
      InsertByKeyDescPermutes(s[..|s| - 1], x, key);
      assert s == s[..|s| - 1] + [s[|s| - 1]];
    }
  }

  lemma {:induction false} InsertByKeyDescSorted<T>(s: seq<T>, x: T, key: T -> string)
    requires SortedByKeyDesc(s, key)
    ensures SortedByKeyDesc(InsertByKeyDesc(s, x, key), key)
  {
    if |s| > 0 {
      var last := s[|s| - 1];
      if Less(key(last), key(x)) {
        var p := s[..|s| - 1];
        InsertByKeyDescSorted(p, x, key);
        InsertByKeyDescPermutes(p, x, key);
        var r := InsertByKeyDesc(p, x, key);
        forall i | 0 <= i < |r|
          ensures !Less(key(r[i]), key(last))
        {
          assert r[i] in multiset(r);
          if r[i] == x {
            LessAsymmetric(key(last), key(x));
          } else {
            assert r[i] in multiset(p);
            var k :| 0 <= k < |p| && p[k] == r[i];
            assert !Less(key(s[k]), key(s[|s| - 1]));
          }
        }
      } else {
        forall i | 0 <= i < |s|
          ensures !Less(key(s[i]), key(x))
        {
          if i < |s| - 1 {
            LeqTransitive(key(x), key(last), key(s[i]));
          }
        }
      }
    }
  }

  /** slices.SortFunc with the comparison "larger key first", as Go's
      insertion sort performs it: a permutation, descending by key. */
  function SortByKeyDesc<T>(s: seq<T>, key: T -> string): (r: seq<T>)
    ensures multiset(r) == multiset(s)
    ensures SortedByKeyDesc(r, key)
  {
    if |s| == 0 then []
    else
      var p := SortByKeyDesc(s[..|s| - 1], key);
      InsertByKeyDescPermutes(p, s[|s| - 1], key);
      InsertByKeyDescSorted(p, s[|s| - 1], key);
      assert s == s[..|s| - 1] + [s[|s| - 1]];
      InsertByKeyDesc(p, s[|s| - 1], key)
  }
}
