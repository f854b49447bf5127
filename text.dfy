/**
  String helpers the daemon relies on from Go's standard library:
  `strings.Cut`, `strings.HasPrefix`, the byte-wise order of strings used by
  `sort.Strings`, and the sort itself. Strings are sequences of characters;
  comparing characters by code point gives the same order as Go's byte-wise
  comparison of their UTF-8 encodings.
*/
module Text {

  /** `sep` occurs in `s` starting at index `i`. */
  predicate OccursAt(s: string, sep: string, i: int) {
    0 <= i && i + |sep| <= |s| && s[i..i + |sep|] == sep
  }

  /** The index of the first occurrence of `sep` in `s`, or -1 (`strings.Index`). */
  function IndexOf(s: string, sep: string): (r: int)
    ensures -1 <= r <= |s|
    ensures r >= 0 ==> r + |sep| <= |s|
    decreases |s|
  {
    if |sep| > |s| then -1
    else if s[..|sep|] == sep then 0
    else
      var k := IndexOf(s[1..], sep);
      if k < 0 then -1 else k + 1
  }

  /** `IndexOf` finds an occurrence, and no occurrence lies before it. */
  lemma {:induction false} IndexOfIsFirst(s: string, sep: string)
    ensures IndexOf(s, sep) >= 0 ==> OccursAt(s, sep, IndexOf(s, sep))
    ensures forall j :: 0 <= j && (IndexOf(s, sep) < 0 || j < IndexOf(s, sep)) ==> !OccursAt(s, sep, j)
    decreases |s|
  {
    if |sep| <= |s| && s[..|sep|] != sep {
      IndexOfIsFirst(s[1..], sep);
      assert !OccursAt(s, sep, 0);
      assert forall j :: 1 <= j ==> (OccursAt(s, sep, j) <==> OccursAt(s[1..], sep, j - 1));
    }
  }

  /** The result of `strings.Cut(s, sep)`. */
  datatype Cut = Cut(before: string, after: string, found: bool)

  /**
    Splits `s` around the first occurrence of `sep`; when `sep` does not occur
    the whole of `s` is `before` and `after` is empty.
  */
  function CutAround(s: string, sep: string): (r: Cut)
    ensures r.found ==> s == r.before + sep + r.after
    ensures !r.found ==> r.before == s && r.after == ""
  {
    var i := IndexOf(s, sep);
    if i < 0 then Cut(s, "", false)
    else
      IndexOfIsFirst(s, sep);
      assert s == s[..i] + s[i..i + |sep|] + s[i + |sep|..];
      Cut(s[..i], s[i + |sep|..], true)
  }

  /** `CutAround` splits at the first occurrence, and finds none only when there is none. */
  lemma CutAroundIsFirst(s: string, sep: string)
    ensures var r := CutAround(s, sep);
      r.found ==> forall j :: 0 <= j < |r.before| ==> !OccursAt(s, sep, j)
    ensures !CutAround(s, sep).found <==> forall j :: 0 <= j ==> !OccursAt(s, sep, j)
  {
    IndexOfIsFirst(s, sep);
  }

  /** `strings.HasPrefix(s, prefix)`. */
  predicate HasPrefix(s: string, prefix: string) {
    |prefix| <= |s| && s[..|prefix|] == prefix
  }

  /** Strict lexicographic order on strings: the order `sort.Strings` uses. */
  predicate LexLess(a: string, b: string)
    decreases |a|
  {
    |b| > 0 && (|a| == 0 || a[0] < b[0] || (a[0] == b[0] && LexLess(a[1..], b[1..])))
  }

  predicate LexLessEq(a: string, b: string) {
    a == b || LexLess(a, b)
  }

  lemma {:induction false} LexLessIrreflexive(a: string)
    ensures !LexLess(a, a)
    decreases |a|
  {
    if |a| > 0 {
      LexLessIrreflexive(a[1..]);
    }
  }

  lemma {:induction false} LexLessTransitive(a: string, b: string, c: string)
    requires LexLess(a, b) && LexLess(b, c)
    ensures LexLess(a, c)
    decreases |a|
  {
    if |a| > 0 && a[0] == b[0] && b[0] == c[0] {
      LexLessTransitive(a[1..], b[1..], c[1..]);
    }
  }

  lemma {:induction false} LexLessTotal(a: string, b: string)
    requires a != b
    ensures LexLess(a, b) || LexLess(b, a)
    decreases |a|
  {
    if |a| > 0 && |b| > 0 && a[0] == b[0] {
      assert a == [a[0]] + a[1..] && b == [b[0]] + b[1..];
      LexLessTotal(a[1..], b[1..]);
    }
  }

  /** Every earlier element is at most every later one. */
  predicate Sorted(s: seq<string>) {
    forall i, j :: 0 <= i < j < |s| ==> LexLessEq(s[i], s[j])
  }

  /** Every earlier element is strictly below every later one. */
  predicate StrictlySorted(s: seq<string>) {
    forall i, j :: 0 <= i < j < |s| ==> LexLess(s[i], s[j])
  }

  predicate NoDuplicates<T(==)>(s: seq<T>) {
    forall i, j :: 0 <= i < j < |s| ==> s[i] != s[j]
  }

  /** Inserts `x` into a sorted sequence before the first element not below it. */
  function Insert(s: seq<string>, x: string): (r: seq<string>)
    requires Sorted(s)
    ensures Sorted(r)
    ensures multiset(r) == multiset(s) + multiset{x}
    decreases |s|
  {
    if s == [] then [x]
    else if !LexLess(s[0], x) then
      InsertFrontSorted(s, x);
      [x] + s
    else
      var t := Insert(s[1..], x);
      assert multiset(t) == multiset(s[1..]) + multiset{x};
      assert forall k :: 0 <= k < |t| ==> t[k] in multiset(t);
      InsertAfterHeadSorted(s, x, t);
      assert s == [s[0]] + s[1..];
      [s[0]] + t
  }

  lemma InsertFrontSorted(s: seq<string>, x: string)
    requires Sorted(s) && s != [] && !LexLess(s[0], x)
    ensures Sorted([x] + s)
  {
    var r := [x] + s;
    forall i, j | 0 <= i < j < |r| ensures LexLessEq(r[i], r[j]) {
      if i == 0 {
        if x != s[0] { LexLessTotal(x, s[0]); }
        if j > 1 && s[0] != s[j - 1] {
          assert LexLess(s[0], s[j - 1]);
          if x != s[0] { LexLessTransitive(x, s[0], s[j - 1]); }
        }
      }
    }
  }

  lemma InsertAfterHeadSorted(s: seq<string>, x: string, t: seq<string>)
    requires Sorted(s) && s != [] && LexLess(s[0], x) && Sorted(t)
    requires multiset(t) == multiset(s[1..]) + multiset{x}
    ensures Sorted([s[0]] + t)
  {
    var r := [s[0]] + t;
    forall k | 0 <= k < |t| ensures LexLessEq(s[0], t[k]) {
      assert t[k] in multiset(t);
      if t[k] != x {
        assert t[k] in multiset(s[1..]);
        var m :| 0 <= m < |s[1..]| && s[1..][m] == t[k];
        assert s[m + 1] == t[k];
      }
    }
    forall i, j | 0 <= i < j < |r| ensures LexLessEq(r[i], r[j]) {
      if i > 0 { assert r[i] == t[i - 1] && r[j] == t[j - 1]; }
      else { assert r[j] == t[j - 1]; }
    }
  }

  /** `sort.Strings`: an insertion sort giving a sorted permutation of its input. */
  function Sort(s: seq<string>): (r: seq<string>)
    ensures Sorted(r)
    ensures multiset(r) == multiset(s)
    decreases |s|
  {
    if s == [] then []
    else
      assert s == [s[0]] + s[1..];
      Insert(Sort(s[1..]), s[0])
  }

  /** A sorted sequence without duplicates is strictly sorted. */
  lemma SortedDistinctIsStrict(s: seq<string>)
    requires Sorted(s) && NoDuplicates(s)
    ensures StrictlySorted(s)
  {
    forall i, j | 0 <= i < j < |s| ensures LexLess(s[i], s[j]) {
      assert LexLessEq(s[i], s[j]) && s[i] != s[j];
    }
  }

  /** The elements of `s` in order of first occurrence, each once. */
  function Dedup(s: seq<string>): (r: seq<string>)
    ensures NoDuplicates(r)
    ensures forall x :: x in r <==> x in s
    decreases |s|
  {
    if s == [] then []
    else if s[|s| - 1] in s[..|s| - 1] then Dedup(s[..|s| - 1])
    else
      assert s == s[..|s| - 1] + [s[|s| - 1]];
      Dedup(s[..|s| - 1]) + [s[|s| - 1]]
  }

  /** Two strictly sorted sequences with the same elements are equal. */
  lemma {:induction false} StrictlySortedUnique(a: seq<string>, b: seq<string>)
    requires StrictlySorted(a) && StrictlySorted(b)
    requires forall x :: x in a <==> x in b
    ensures a == b
    decreases |a|
  {
    assert a != [] ==> a[0] in b;
    assert b != [] ==> b[0] in a;
    if a != [] && b != [] {
      if a[0] != b[0] {
        assert a[0] in b && b[0] in a;
        var k :| 0 <= k < |b| && b[k] == a[0];
        var m :| 0 <= m < |a| && a[m] == b[0];
        assert k > 0 && m > 0;
        LexLessTransitive(a[0], b[0], a[0]);
        LexLessIrreflexive(a[0]);
      }
      forall x ensures x in a[1..] <==> x in b[1..] {
        if x in a[1..] {
          var k :| 1 <= k < |a| && a[k] == x;
          LexLessIrreflexive(a[0]);
          assert x in b && x != b[0];
        }
        if x in b[1..] {
          var k :| 1 <= k < |b| && b[k] == x;
          LexLessIrreflexive(b[0]);
          assert x in a && x != a[0];
        }
      }
      StrictlySortedUnique(a[1..], b[1..]);
      assert a == [a[0]] + a[1..] && b == [b[0]] + b[1..];
    }
  }

  /** A permutation of a duplicate-free sequence is duplicate-free. */
  lemma {:induction false} PermutationKeepsNoDuplicates<T>(s: seq<T>, r: seq<T>)
    requires multiset(r) == multiset(s) && NoDuplicates(s)
    ensures NoDuplicates(r)
  {
    forall i, j | 0 <= i < j < |r| ensures r[i] != r[j] {
      if r[i] == r[j] {
        var x := r[i];
        assert r == r[..i] + [x] + r[i + 1..j] + [x] + r[j + 1..];
        assert multiset(r)[x] >= 2;
        CountAtMostOne(s, x);
        assert false;
      }
    }
  }

  lemma {:induction false} CountAtMostOne<T>(s: seq<T>, x: T)
    requires NoDuplicates(s)
    ensures multiset(s)[x] <= 1
    decreases |s|
  {
    if s != [] {
      assert s == [s[0]] + s[1..];
      CountAtMostOne(s[1..], x);
      if s[0] == x {
        assert x !in s[1..];
        assert multiset(s[1..])[x] == 0;
      }
    }
  }
}
