/**
 * The JavaScript string operations the plugin relies on: `String.prototype.substring`,
 * `Array.prototype.join('')`, and the default ordering used by `Array.prototype.sort()`.
 */
module JsStrings {

  /** An index argument of `substring`, clamped to `[0, n]`. */
  function Clamp(i: int, n: nat): (r: nat)
    ensures r <= n
    ensures 0 <= i <= n ==> r == i
  {
    if i < 0 then 0 else if i > n then n else i
  }

  /**
   * `substring` on `s`: both arguments are clamped to the string, and swapped when the
   * start lies past the end, so the result is always a slice of `s`.
   */
  function Substring(s: string, start: int, end: int): (r: string)
    ensures |r| <= |s|
    ensures 0 <= start <= end <= |s| ==> r == s[start..end]
    ensures 0 <= end <= start <= |s| ==> r == s[end..start]
    ensures start <= 0 && |s| <= end ==> r == s
    ensures start == end ==> r == []
  {
    var a, b := Clamp(start, |s|), Clamp(end, |s|);
    if a <= b then s[a..b] else s[b..a]
  }

  /**
   * `v.substring(1, v.length - 1)`, the quote stripping applied to attribute values.
   * A value of two or more characters loses exactly its first and last character;
   * because `substring` swaps reversed arguments, a one-character value is kept whole.
   */
  function StripQuotes(v: string): (r: string)
    ensures |v| >= 2 ==> r == v[1..|v| - 1]
    ensures |v| == 1 ==> r == v
    ensures |v| == 0 ==> r == []
  {
    Substring(v, 1, |v| - 1)
  }

  /** `parts.join('')`. */
  function Concat(parts: seq<string>): string
  {
    if parts == [] then [] else Concat(parts[..|parts| - 1]) + parts[|parts| - 1]
  }

  /** The default comparison of `Array.prototype.sort()`: lexicographic, a proper prefix first. */
  predicate Less(a: string, b: string)
  {
    if b == [] then false
    else if a == [] then true
    else if a[0] != b[0] then a[0] < b[0]
    else Less(a[1..], b[1..])
  }

  lemma {:induction false} LessIrreflexive(a: string)
    ensures !Less(a, a)
  {
    if a != [] {
      LessIrreflexive(a[1..]);
    }
  }

  lemma {:induction false} LessAsymmetric(a: string, b: string)
    ensures !(Less(a, b) && Less(b, a))
  {
    if a != [] && b != [] && a[0] == b[0] {
      LessAsymmetric(a[1..], b[1..]);
    }
  }

  lemma {:induction false} LessTransitive(a: string, b: string, c: string)
    requires Less(a, b) && Less(b, c)
    ensures Less(a, c)
  {
    if a != [] && a[0] == b[0] && b[0] == c[0] {
      LessTransitive(a[1..], b[1..], c[1..]);
    }
  }

  lemma {:induction false} LessTotal(a: string, b: string)
    requires a != b
    ensures Less(a, b) || Less(b, a)
  {
    if a != [] && b != [] && a[0] == b[0] {
      assert a == [a[0]] + a[1..] && b == [b[0]] + b[1..];
      LessTotal(a[1..], b[1..]);
    }
  }

  predicate Distinct(xs: seq<string>)
  {
    forall i, j :: 0 <= i < j < |xs| ==> xs[i] != xs[j]
  }

  predicate StrictlySorted(xs: seq<string>)
  {
    forall i, j :: 0 <= i < j < |xs| ==> Less(xs[i], xs[j])
  }

  /** `xs` lists every element of `s` exactly once, as `Object.getOwnPropertyNames` does for keys. */
  predicate Enumerates(xs: seq<string>, s: set<string>)
  {
    Distinct(xs) && (forall x :: x in xs ==> x in s) && (forall x :: x in s ==> x in xs)
  }

  function Insert(x: string, xs: seq<string>): seq<string>
  {
    if xs == [] || !Less(xs[0], x) then [x] + xs else [xs[0]] + Insert(x, xs[1..])
  }

  /** A reference sort: the ascending order of `Less`. */
  function Sort(xs: seq<string>): seq<string>
  {
    if xs == [] then [] else Insert(xs[0], Sort(xs[1..]))
  }

  /** Inserting adds exactly the one element. */
  lemma {:induction false} InsertPermutes(x: string, xs: seq<string>)
    ensures multiset(Insert(x, xs)) == multiset(xs) + multiset{x}
  {
    if xs != [] && Less(xs[0], x) {
      InsertPermutes(x, xs[1..]);
      assert xs == [xs[0]] + xs[1..];
    }
  }

  /** An element below the head of a sorted sequence goes first, and the result is sorted. */
  lemma InsertFront(x: string, xs: seq<string>)
    requires StrictlySorted(xs) && xs != [] && Less(x, xs[0])
    ensures StrictlySorted([x] + xs)
  {
    var r := [x] + xs;
    forall i, j | 0 <= i < j < |r|
      ensures Less(r[i], r[j])
    {
      if i == 0 {
        assert r[j] == xs[j - 1];
        if j > 1 { LessTransitive(x, xs[0], xs[j - 1]); }
      } else {
        assert r[i] == xs[i - 1] && r[j] == xs[j - 1];
      }
    }
  }

  /** A head below every element of a sorted sequence keeps it sorted. */
  lemma ConsSorted(h: string, rest: seq<string>)
    requires StrictlySorted(rest)
    requires forall k :: 0 <= k < |rest| ==> Less(h, rest[k])
    ensures StrictlySorted([h] + rest)
  {
    var r := [h] + rest;
    forall i, j | 0 <= i < j < |r|
      ensures Less(r[i], r[j])
    {
      assert r[j] == rest[j - 1];
      if i > 0 {
        assert r[i] == rest[i - 1];
      }
    }
  }

  lemma {:induction false} InsertSorted(x: string, xs: seq<string>)
    requires StrictlySorted(xs) && x !in xs
    ensures StrictlySorted(Insert(x, xs))
    ensures multiset(Insert(x, xs)) == multiset(xs) + multiset{x}
  {
    InsertPermutes(x, xs);
    if xs == [] {
    } else if !Less(xs[0], x) {
      LessTotal(x, xs[0]);
      InsertFront(x, xs);
    } else {
      var rest := Insert(x, xs[1..]);
      InsertSorted(x, xs[1..]);
      InsertPermutes(x, xs[1..]);
      forall k | 0 <= k < |rest|
        ensures Less(xs[0], rest[k])
      {
        var y := rest[k];
        assert y in multiset(rest);
        if y != x {
          assert y in multiset(xs[1..]);
          var m :| 0 <= m < |xs[1..]| && xs[1..][m] == y;
          assert xs[m + 1] == y;
        }
      }
      ConsSorted(xs[0], rest);
    }
  }

  lemma {:induction false} SortSorted(xs: seq<string>)
    requires Distinct(xs)
    ensures StrictlySorted(Sort(xs))
    ensures multiset(Sort(xs)) == multiset(xs)
  {
    if xs != [] {
      SortSorted(xs[1..]);
      assert xs == [xs[0]] + xs[1..];
      assert xs[0] !in multiset(xs[1..]);
      InsertSorted(xs[0], Sort(xs[1..]));
    }
  }

  /**
   * A non-empty sequence holds its head. Stated apart so that the base case of
   * `SortedUnique`, which cannot happen, needs no indexing of its own.
   */
  lemma HeadIsElement(s: seq<string>)
    ensures s != [] ==> s[0] in s
  {
  }

  /** Two ascending sequences with the same elements are equal. */
  lemma {:induction false} SortedUnique(a: seq<string>, b: seq<string>)
    requires StrictlySorted(a) && StrictlySorted(b)
    requires forall x :: x in a <==> x in b
    ensures a == b
  {
    if a != [] {
      assert a[0] in b && b[0] in a;
      if a[0] != b[0] {
        var k :| 0 <= k < |b| && b[k] == a[0];
        var m :| 0 <= m < |a| && a[m] == b[0];
        assert k > 0 && m > 0;
        assert Less(b[0], a[0]) && Less(a[0], b[0]);
        LessAsymmetric(a[0], b[0]);
      }
      forall x
        ensures x in a[1..] <==> x in b[1..]
      {
        if x in a[1..] {
          var i :| 1 <= i < |a| && a[i] == x;
          LessIrreflexive(a[0]);
          assert x in a;
          var j :| 0 <= j < |b| && b[j] == x;
          assert j != 0;
          assert b[1..][j - 1] == x;
        }
        if x in b[1..] {
          var i :| 1 <= i < |b| && b[i] == x;
          LessIrreflexive(b[0]);
          assert x in b;
          var j :| 0 <= j < |a| && a[j] == x;
          assert j != 0;
          assert a[1..][j - 1] == x;
        }
      }
      SortedUnique(a[1..], b[1..]);
      assert a == [a[0]] + a[1..] && b == [b[0]] + b[1..];
    } else {
      HeadIsElement(b);
    }
  }

  lemma {:induction false} EnumerationExists(s: set<string>)
    ensures exists xs :: Enumerates(xs, s)
  {
    if s == {} {
      assert Enumerates([], s);
    } else {
      var x :| x in s;
      EnumerationExists(s - {x});
      var ys :| Enumerates(ys, s - {x});
      assert Enumerates([x] + ys, s);
    }
  }

  /** The keys of a set in ascending order: what `Object.getOwnPropertyNames(o).sort()` yields. */
  ghost function SortedKeys(s: set<string>): (r: seq<string>)
    ensures StrictlySorted(r)
    ensures forall x :: x in r <==> x in s
  {
    EnumerationExists(s);
    var xs :| Enumerates(xs, s);
    SortSorted(xs);
    assert forall x :: x in Sort(xs) <==> x in multiset(xs);
    Sort(xs)
  }

  /** Sorting makes the enumeration order of the keys irrelevant. */
  lemma SortIndependent(xs: seq<string>, s: set<string>)
    requires Enumerates(xs, s)
    ensures Sort(xs) == SortedKeys(s)
  {
    SortSorted(xs);
    assert forall x :: x in Sort(xs) <==> x in multiset(xs);
    SortedUnique(Sort(xs), SortedKeys(s));
  }
}
