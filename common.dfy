/**
 * Shared vocabulary: optional values, positive price series, Python's string
 * order (used for the ISO dates everywhere in the backend) and the stable sort
 * that `list.sort(key=...)` / `sorted(..., key=...)` perform.
 */
module Common {

  datatype Option<+T> = None | Some(value: T)

  /** The outcome of an operation that can raise: a value, or the error it raises. */
  datatype Result<+T, +E> = Ok(value: T) | Err(error: E)

  /** A price series as the backend sees it: every NAV is strictly positive. */
  predicate AllPositive(s: seq<real>) {
    forall k :: 0 <= k < |s| ==> s[k] > 0.0
  }

  /**
   * Percentage change from p0 to p1, (p1 - p0) / p0 * 100: a phase's gain,
   * a fund's momentum, the index return.
   */
  function Gain(p0: real, p1: real): (g: real)
    requires p0 > 0.0
    ensures g > 0.0 <==> p1 > p0
    ensures g == 0.0 <==> p1 == p0
  {
    (p1 - p0) / p0 * 100.0
  }

  /** The gain determines the later price again from the earlier one. */
  lemma GainRoundTrip(p0: real, p1: real)
    requires p0 > 0.0
    ensures p1 == p0 * (1.0 + Gain(p0, p1) / 100.0)
  {
  }

  /** The set of elements of a sequence. */
  function Elements<T>(s: seq<T>): set<T> {
    set x | x in s
  }

  /** Appending is associative. */
  lemma AppendAssociative<T>(a: seq<T>, b: seq<T>, c: seq<T>)
    ensures a + (b + c) == (a + b) + c
  {
  }

  /** No element occurs twice. */
  predicate NoDuplicates<T(==)>(s: seq<T>) {
    forall a, b :: 0 <= a < b < |s| ==> s[a] != s[b]
  }

  /** `[y for x in s if f(x) is not None]`: the images of the elements f keeps, in order. */
  function FilterMap<A, B>(s: seq<A>, f: A -> Option<B>): seq<B> {
    if |s| == 0 then []
    else
      var init := FilterMap(s[..|s| - 1], f);
      match f(s[|s| - 1])
      case None => init
      case Some(y) => init + [y]
  }

  /** y comes out exactly when some element maps to it. */
  lemma {:induction false} FilterMapMembers<A, B>(s: seq<A>, f: A -> Option<B>, y: B)
    ensures y in FilterMap(s, f) <==> exists k :: 0 <= k < |s| && f(s[k]) == Some(y)
  {
    if |s| > 0 {
      var init := s[..|s| - 1];
      FilterMapMembers(init, f, y);
      if y in FilterMap(s, f) {
        if y in FilterMap(init, f) {
          var k :| 0 <= k < |init| && f(init[k]) == Some(y);
          assert s[k] == init[k];
        } else {
          assert f(s[|s| - 1]) == Some(y);
        }
      } else {
        forall k | 0 <= k < |s|
          ensures f(s[k]) != Some(y)
        {
          if k < |init| {
            assert s[k] == init[k];
          }
        }
      }
    }
  }

  /** Two equal elements at different positions count twice. */
  lemma DuplicateCounted<T>(s: seq<T>, a: nat, b: nat)
    requires a < b < |s| && s[a] == s[b]
    ensures multiset(s)[s[a]] >= 2
  {
    assert s == s[..b] + s[b..];
    assert s[a] in s[..b];
    assert s[b] in s[b..];
  }

  /** Without duplicates every element counts at most once. */
  lemma {:induction false} NoDuplicatesCounted<T>(s: seq<T>, x: T)
    requires NoDuplicates(s)
    ensures multiset(s)[x] <= 1
  {
    if s != [] {
      var init := s[..|s| - 1];
      assert s == init + [s[|s| - 1]];
      NoDuplicatesCounted(init, x);
      if x == s[|s| - 1] {
        assert x !in init;
      }
    }
  }

  /**
   * A permutation of a sequence whose elements have pairwise distinct keys
   * again has pairwise distinct keys.
   */
  lemma DistinctKeysPermuted<T, K>(s: seq<T>, r: seq<T>, key: T -> K)
    requires multiset(s) == multiset(r)
    requires forall a, b :: 0 <= a < b < |s| ==> key(s[a]) != key(s[b])
    ensures forall a, b :: 0 <= a < b < |r| ==> key(r[a]) != key(r[b])
  {
    forall a, b | 0 <= a < b < |r|
      ensures key(r[a]) != key(r[b])
    {
      if r[a] == r[b] {
        DuplicateCounted(r, a, b);
        NoDuplicatesCounted(s, r[a]);
      } else {
        assert r[a] in multiset(s) && r[b] in multiset(s);
        var p :| 0 <= p < |s| && s[p] == r[a];
        var q :| 0 <= q < |s| && s[q] == r[b];
        assert p != q;
      }
    }
  }

  // ---------------------------------------------------------------------
  // Python's `<=` on `str`: lexicographic by code point, a proper prefix is
  // smaller. ISO dates "YYYY-MM-DD" compare chronologically under it.
  // ---------------------------------------------------------------------

  predicate LexLe(a: string, b: string) {
    |a| == 0 || (|b| > 0 && (a[0] < b[0] || (a[0] == b[0] && LexLe(a[1..], b[1..]))))
  }

  lemma {:induction false} LexLeReflexive(a: string)
    ensures LexLe(a, a)
  {
    if |a| > 0 { LexLeReflexive(a[1..]); }
  }

  lemma {:induction false} LexLeTotal(a: string, b: string)
    ensures LexLe(a, b) || LexLe(b, a)
  {
    if |a| > 0 && |b| > 0 && a[0] == b[0] { LexLeTotal(a[1..], b[1..]); }
  }

  lemma {:induction false} LexLeTransitive(a: string, b: string, c: string)
    requires LexLe(a, b) && LexLe(b, c)
    ensures LexLe(a, c)
  {
    if |a| > 0 && a[0] == b[0] && b[0] == c[0] {
      LexLeTransitive(a[1..], b[1..], c[1..]);
    }
  }

  lemma {:induction false} LexLeAntisymmetric(a: string, b: string)
    requires LexLe(a, b) && LexLe(b, a)
    ensures a == b
  {
    if |a| > 0 {
      LexLeAntisymmetric(a[1..], b[1..]);
      assert a == [a[0]] + a[1..];
      assert b == [b[0]] + b[1..];
    }
  }

  /** Python's `<` on `str`. */
  predicate LexLt(a: string, b: string) {
    LexLe(a, b) && a != b
  }

  /**
   * `max(s, key=key)`: the position of the first element with the greatest
   * key (the running maximum is replaced only by a strictly greater key).
   */
  function LatestBy<T>(s: seq<T>, key: T -> string): (k: nat)
    requires |s| > 0
    ensures k < |s|
  {
    if |s| == 1 then 0
    else
      var k := LatestBy(s[..|s| - 1], key);
      if LexLt(key(s[k]), key(s[|s| - 1])) then |s| - 1 else k
  }

  /** The chosen element has the greatest key, and every earlier one a different key. */
  lemma {:induction false} LatestByMaximal<T>(s: seq<T>, key: T -> string)
    requires |s| > 0
    ensures forall m :: 0 <= m < |s| ==> LexLe(key(s[m]), key(s[LatestBy(s, key)]))
    ensures forall m :: 0 <= m < LatestBy(s, key) ==> key(s[m]) != key(s[LatestBy(s, key)])
  {
    var k := LatestBy(s, key);
    if |s| == 1 {
      LexLeReflexive(key(s[0]));
    } else {
      var init := s[..|s| - 1];
      var last := s[|s| - 1];
      var j := LatestBy(init, key);
      LatestByMaximal(init, key);
      if LexLt(key(s[j]), key(last)) {
        forall m | 0 <= m < |s|
          ensures LexLe(key(s[m]), key(last))
        {
          if m < |s| - 1 {
            assert init[m] == s[m];
            LexLeTransitive(key(s[m]), key(s[j]), key(last));
          } else {
            LexLeReflexive(key(last));
          }
        }
        forall m | 0 <= m < |s| - 1
          ensures key(s[m]) != key(last)
        {
          assert init[m] == s[m];
          if key(s[m]) == key(last) {
            LexLeAntisymmetric(key(s[j]), key(last));
          }
        }
      } else {
        LexLeTotal(key(s[j]), key(last));
        forall m | 0 <= m < |s|
          ensures LexLe(key(s[m]), key(s[j]))
        {
          if m < |s| - 1 {
            assert init[m] == s[m];
          } else {
            if key(s[j]) != key(last) {
              assert LexLe(key(last), key(s[j]));
            } else {
              LexLeReflexive(key(last));
            }
          }
        }
        forall m | 0 <= m < j
          ensures key(s[m]) != key(s[j])
        {
          assert init[m] == s[m];
        }
      }
    }
  }

  /** When the keys strictly increase along the sequence, the latest is the last element. */
  lemma LatestOfIncreasing<T>(s: seq<T>, key: T -> string)
    requires |s| > 0
    requires forall a, b :: 0 <= a < b < |s| ==> LexLt(key(s[a]), key(s[b]))
    ensures LatestBy(s, key) == |s| - 1
  {
    LatestByMaximal(s, key);
    var k := LatestBy(s, key);
    if k < |s| - 1 {
      LexLeAntisymmetric(key(s[k]), key(s[|s| - 1]));
    }
  }

  // ---------------------------------------------------------------------
  // Stable sort by a string key (Python's `sorted` / `list.sort` with `key=`).
  // Insertion from the back: an element goes after every element whose key is
  // not greater than its own, so equal keys keep their input order.
  // ---------------------------------------------------------------------

  predicate SortedBy<T>(s: seq<T>, key: T -> string) {
    forall a, b :: 0 <= a < b < |s| ==> LexLe(key(s[a]), key(s[b]))
  }

  function InsertBy<T>(t: seq<T>, x: T, key: T -> string): (r: seq<T>)
    ensures |r| == |t| + 1
    ensures multiset(r) == multiset(t) + multiset{x}
  {
    if t == [] then [x]
    else if LexLe(key(t[|t| - 1]), key(x)) then t + [x]
    else
      var r := InsertBy(t[..|t| - 1], x, key) + [t[|t| - 1]];
      assert t == t[..|t| - 1] + [t[|t| - 1]];
      r
  }

  function SortBy<T>(s: seq<T>, key: T -> string): (r: seq<T>)
    ensures |r| == |s|
    ensures multiset(r) == multiset(s)
  {
    if s == [] then []
    else
      var r := InsertBy(SortBy(s[..|s| - 1], key), s[|s| - 1], key);
      assert s == s[..|s| - 1] + [s[|s| - 1]];
      r
  }

  lemma {:induction false} InsertBySorted<T>(t: seq<T>, x: T, key: T -> string)
    requires SortedBy(t, key)
    ensures SortedBy(InsertBy(t, x, key), key)
  {
    if t != [] && !LexLe(key(t[|t| - 1]), key(x)) {
      var last := t[|t| - 1];
      var init := t[..|t| - 1];
      LexLeTotal(key(last), key(x));
      InsertBySorted(init, x, key);
      var u := InsertBy(init, x, key);
      forall k | 0 <= k < |u|
        ensures LexLe(key(u[k]), key(last))
      {
        assert u[k] in multiset(u);
        if u[k] != x {
          assert u[k] in multiset(init);
          var m :| 0 <= m < |init| && init[m] == u[k];
          assert t[m] == u[k];
        }
      }
    } else if t != [] {
      forall a, b | 0 <= a < b < |t| + 1
        ensures LexLe(key((t + [x])[a]), key((t + [x])[b]))
      {
        if b == |t| && a < |t| - 1 {
          LexLeTransitive(key(t[a]), key(t[|t| - 1]), key(x));
        }
      }
    }
  }

  /** The sort orders by key and is a permutation of its input. */
  lemma {:induction false} SortBySorted<T>(s: seq<T>, key: T -> string)
    ensures SortedBy(SortBy(s, key), key)
    ensures multiset(SortBy(s, key)) == multiset(s)
  {
    if s != [] {
      SortBySorted(s[..|s| - 1], key);
      InsertBySorted(SortBy(s[..|s| - 1], key), s[|s| - 1], key);
    }
  }

  /** Sorting keeps and adds nothing: the same elements come out. */
  lemma SortByMembers<T>(s: seq<T>, key: T -> string, x: T)
    ensures x in SortBy(s, key) <==> x in s
  {
    var r := SortBy(s, key);
    assert x in r <==> x in multiset(r);
    assert x in s <==> x in multiset(s);
  }
}
