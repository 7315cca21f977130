/**
 * Go's sort.Strings on the byte-wise string order, and the sorted list of
 * a map's keys that the documentation generator builds by collecting the
 * keys in map order and sorting them.  A sorted list with the same
 * elements is unique, so the result does not depend on the map's
 * iteration order.
 */
module Sorting {
  import opened Str

  /** Extending a prefix by one element: the shorter prefix and the new last element. */
  lemma TakeStep<T>(s: seq<T>, i: int)
    requires 0 <= i < |s|
    ensures s[..i + 1][..i] == s[..i] && s[..i + 1][i] == s[i]
  {
  }

  predicate Sorted(s: seq<string>)
  {
    forall i, j :: 0 <= i < j < |s| ==> LessEq(s[i], s[j])
  }

  /** `s` with `x` placed before the first element it does not exceed. */
  function Insert(s: seq<string>, x: string): (r: seq<string>)
    ensures multiset(r) == multiset(s) + multiset{x}
  {
    if s == [] then [x]
    else if LessEq(x, s[0]) then [x] + s
    else
      assert s == [s[0]] + s[1..];
      [s[0]] + Insert(s[1..], x)
  }

  lemma {:induction false} InsertSorted(s: seq<string>, x: string)
    requires Sorted(s)
    ensures Sorted(Insert(s, x))
    decreases |s|
  {
    if s == [] {
    } else if LessEq(x, s[0]) {
      forall j | 0 <= j < |s|
        ensures LessEq(x, s[j])
      {
        if j > 0 {
          LessEqTransitive(x, s[0], s[j]);
        }
      }
    } else {
      LessEqTotal(x, s[0]);
      var t := Insert(s[1..], x);
      InsertSorted(s[1..], x);
      forall k | 0 <= k < |t|
        ensures LessEq(s[0], t[k])
      {
        assert t[k] in multiset(t);
        if t[k] != x {
          assert t[k] in multiset(s[1..]);
          var j :| 0 <= j < |s[1..]| && s[1..][j] == t[k];
          assert s[j + 1] == t[k];
        }
      }
      assert Insert(s, x) == [s[0]] + t;
    }
  }

  /** sort.Strings: the same strings in ascending order. */
  method SortStrings(s: seq<string>) returns (r: seq<string>)
    ensures Sorted(r)
    ensures multiset(r) == multiset(s)
  {
    r := [];
    var i := 0;
    while i < |s|
      invariant 0 <= i <= |s|
      invariant Sorted(r)
      invariant multiset(r) == multiset(s[..i])
    {
      InsertSorted(r, s[i]);
      assert s[..i + 1] == s[..i] + [s[i]];
      r := Insert(r, s[i]);
      i := i + 1;
    }
    assert s[..|s|] == s;
  }

  lemma LessEqReflexive(a: string)
    ensures LessEq(a, a)
  {
    LessEqTotal(a, a);
  }

  lemma MultisetTail(a: seq<string>)
    requires a != []
    ensures multiset(a[1..]) == multiset(a) - multiset{a[0]}
  {
    assert a == [a[0]] + a[1..];
  }

  lemma MultisetAddNew(s: set<string>, k: string)
    requires k !in s
    ensures multiset(s + {k}) == multiset(s) + multiset{k}
  {
  }

  /** The first element of a sorted list is at most each of its elements. */
  lemma SortedFirst(a: seq<string>, x: string)
    requires Sorted(a) && x in a
    ensures LessEq(a[0], x)
  {
    var j :| 0 <= j < |a| && a[j] == x;
    if j == 0 {
      LessEqReflexive(x);
    }
  }

  /** Two sorted lists of the same strings are equal. */
  lemma {:induction false} SortedUnique(a: seq<string>, b: seq<string>)
    requires Sorted(a) && Sorted(b) && multiset(a) == multiset(b)
    ensures a == b
    decreases |a|
  {
    assert |a| == |multiset(a)| == |multiset(b)| == |b|;
    if a != [] {
      assert a[0] in multiset(b) && b[0] in multiset(a);
      SortedFirst(b, a[0]);
      SortedFirst(a, b[0]);
      LessEqAntisymmetric(a[0], b[0]);
      MultisetTail(a);
      MultisetTail(b);
      SortedUnique(a[1..], b[1..]);
      assert a == [a[0]] + a[1..] && b == [b[0]] + b[1..];
    }
  }

  /** A least string of a non-empty set. */
  lemma {:induction false} LeastOf(s: set<string>) returns (m: string)
    requires s != {}
    ensures m in s && forall x :: x in s ==> LessEq(m, x)
    decreases |s|
  {
    var y :| y in s;
    if s - {y} == {} {
      m := y;
      forall x | x in s
        ensures LessEq(y, x)
      {
        assert x !in s - {y};
        LessEqReflexive(x);
      }
    } else {
      var m' := LeastOf(s - {y});
      LessEqTotal(y, m');
      if LessEq(y, m') {
        m := y;
        forall x | x in s
          ensures LessEq(y, x)
        {
          if x == y {
            LessEqReflexive(x);
          } else {
            LessEqTransitive(y, m', x);
          }
        }
      } else {
        m := m';
      }
    }
  }

  lemma LeastExists(s: set<string>)
    requires s != {}
    ensures exists m :: m in s && forall x :: x in s ==> LessEq(m, x)
  {
    var m := LeastOf(s);
  }

  ghost function Least(s: set<string>): (m: string)
    requires s != {}
    ensures m in s
    ensures forall x :: x in s ==> LessEq(m, x)
  {
    LeastExists(s);
    var m :| m in s && forall x :: x in s ==> LessEq(m, x);
    m
  }

  /** The elements of `s` in ascending order. */
  ghost function SortedKeys(s: set<string>): (r: seq<string>)
    ensures |r| == |s|
    ensures forall x :: x in r <==> x in s
    decreases |s|
  {
    if s == {} then []
    else
      var m := Least(s);
      [m] + SortedKeys(s - {m})
  }

  /** SortedKeys is sorted. */
  lemma {:induction false} SortedKeysSorted(s: set<string>)
    ensures Sorted(SortedKeys(s))
    decreases |s|
  {
    if s != {} {
      var m := Least(s);
      var rest := SortedKeys(s - {m});
      SortedKeysSorted(s - {m});
      assert SortedKeys(s) == [m] + rest;
      forall j | 0 <= j < |rest|
        ensures LessEq(m, rest[j])
      {
        assert rest[j] in s;
      }
    }
  }

  /** SortedKeys holds each element of the set once. */
  lemma {:induction false} SortedKeysElements(s: set<string>)
    ensures multiset(SortedKeys(s)) == multiset(s)
    decreases |s|
  {
    if s != {} {
      var m := Least(s);
      SortedKeysElements(s - {m});
      assert SortedKeys(s) == [m] + SortedKeys(s - {m});
      MultisetAddNew(s - {m}, m);
      assert s == (s - {m}) + {m};
    }
  }

  /** Any sorted list holding each element of `s` once is SortedKeys(s): the order of collection does not matter. */
  lemma SortedKeysUnique(s: set<string>, r: seq<string>)
    requires Sorted(r) && multiset(r) == multiset(s)
    ensures r == SortedKeys(s)
  {
    SortedKeysSorted(s);
    SortedKeysElements(s);
    SortedUnique(r, SortedKeys(s));
  }

  /** The keys collected in an unspecified order and then sorted, as the generator does for paths, codes and names. */
  method SortedKeysOf(s: set<string>) returns (r: seq<string>)
    ensures r == SortedKeys(s)
  {
    var keys: seq<string> := [];
    var todo := s;
    while todo != {}
      invariant todo <= s
      invariant multiset(keys) == multiset(s - todo)
      decreases todo
    {
      var k :| k in todo;
      assert s - (todo - {k}) == (s - todo) + {k};
      MultisetAddNew(s - todo, k);
      keys := keys + [k];
      todo := todo - {k};
    }
    assert s - {} == s;
    r := SortStrings(keys);
    SortedKeysUnique(s, r);
  }
}
