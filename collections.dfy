/**
 * The array and object built-ins the application relies on: `Array.prototype.filter`, the first
 * match of `Array.prototype.find`, and the sum of `Object.values(o)` over a numeric record.
 */
module Collections {
  import opened Values

  /** `a` is `b` with some elements left out, the rest kept in order. */
  predicate IsSubsequence<T(==,!new)>(a: seq<T>, b: seq<T>)
    decreases |b|
  {
    a == [] || (b != [] && ((a[0] == b[0] && IsSubsequence(a[1..], b[1..])) || IsSubsequence(a, b[1..])))
  }

  /** `s.filter(p)`. */
  function Filter<T(==,!new)>(s: seq<T>, p: T -> bool): (r: seq<T>)
    ensures |r| <= |s|
    ensures forall x :: x in r <==> x in s && p(x)
    ensures IsSubsequence(r, s)
  {
    if s == [] then []
    else if p(s[0]) then [s[0]] + Filter(s[1..], p)
    else Filter(s[1..], p)
  }

  /** Two predicates that agree on every element of `s` keep the same number of elements. */
  lemma {:induction false} FilterLengthAgrees<T(!new)>(s: seq<T>, p: T -> bool, q: T -> bool)
    requires forall x :: x in s ==> p(x) == q(x)
    ensures |Filter(s, p)| == |Filter(s, q)|
  {
    if s != [] {
      FilterLengthAgrees(s[1..], p, q);
    }
  }

  /** A predicate that holds of every element keeps the whole sequence. */
  lemma {:induction false} FilterKeepsAll<T(!new)>(s: seq<T>, p: T -> bool)
    requires forall x :: x in s ==> p(x)
    ensures Filter(s, p) == s
  {
    if s != [] {
      FilterKeepsAll(s[1..], p);
    }
  }

  /** A predicate implied by another keeps at least as many elements. */
  lemma {:induction false} FilterLengthMonotone<T(!new)>(s: seq<T>, p: T -> bool, q: T -> bool)
    requires forall x :: x in s && p(x) ==> q(x)
    ensures |Filter(s, p)| <= |Filter(s, q)|
  {
    if s != [] {
      FilterLengthMonotone(s[1..], p, q);
    }
  }

  /** Filtering distributes over concatenation. */
  lemma {:induction false} FilterAppend<T(!new)>(s: seq<T>, t: seq<T>, p: T -> bool)
    ensures Filter(s + t, p) == Filter(s, p) + Filter(t, p)
  {
    if s == [] {
      assert s + t == t;
    } else {
      assert (s + t)[1..] == s[1..] + t;
      FilterAppend(s[1..], t, p);
    }
  }

  /** Filtering keeps every element that passes as often as it occurs, and drops every other one. */
  lemma {:induction false} FilterMultiplicity<T(!new)>(s: seq<T>, p: T -> bool, x: T)
    ensures multiset(Filter(s, p))[x] == if p(x) then multiset(s)[x] else 0
  {
    if s != [] {
      FilterMultiplicity(s[1..], p, x);
      assert s == [s[0]] + s[1..];
      assert multiset(s) == multiset([s[0]]) + multiset(s[1..]);
      if p(s[0]) {
        assert multiset(Filter(s, p)) == multiset([s[0]]) + multiset(Filter(s[1..], p));
      }
    }
  }

  // ---------------------------------------------------------------- records keyed by an id

  /** `s.find(x => key(x) === k)`: the first element whose key is `k`, if any. */
  function Find<T(!new)>(s: seq<T>, key: T -> int, k: int): (r: Option<T>)
    ensures r.Some? ==> r.value in s && key(r.value) == k
    ensures r.None? <==> forall x :: x in s ==> key(x) != k
  {
    if s == [] then None
    else if key(s[0]) == k then Some(s[0])
    else Find(s[1..], key, k)
  }

  /** `s.map(x => key(x) === k ? f(x) : x)`: every element whose key is `k` rewritten by `f`. */
  function ReplaceWhere<T>(s: seq<T>, key: T -> int, k: int, f: T -> T): (r: seq<T>)
    ensures |r| == |s|
    ensures forall i :: 0 <= i < |s| && key(s[i]) != k ==> r[i] == s[i]
    ensures forall i :: 0 <= i < |s| && key(s[i]) == k ==> r[i] == f(s[i])
  {
    if s == [] then [] else [if key(s[0]) == k then f(s[0]) else s[0]] + ReplaceWhere(s[1..], key, k, f)
  }

  /** `s.filter(x => key(x) !== k)`. */
  function RemoveWhere<T(==,!new)>(s: seq<T>, key: T -> int, k: int): (r: seq<T>)
    ensures forall x :: x in r <==> x in s && key(x) != k
    ensures IsSubsequence(r, s)
  {
    Filter(s, x => key(x) != k)
  }

  /**
   * Rewriting the elements keyed `k` by a key-preserving `f` rewrites what a lookup of `k` finds
   * and leaves every other lookup as it was.
   */
  lemma {:induction false} FindReplaceWhere<T(!new)>(s: seq<T>, key: T -> int, k: int, f: T -> T, j: int)
    requires forall x :: key(f(x)) == key(x)
    ensures j != k ==> Find(ReplaceWhere(s, key, k, f), key, j) == Find(s, key, j)
    ensures j == k ==> Find(ReplaceWhere(s, key, k, f), key, j).Some? == Find(s, key, j).Some?
    ensures j == k && Find(s, key, j).Some? ==>
      Find(ReplaceWhere(s, key, k, f), key, j).value == f(Find(s, key, j).value)
  {
    if s != [] {
      var r := ReplaceWhere(s, key, k, f);
      assert r[1..] == ReplaceWhere(s[1..], key, k, f);
      FindReplaceWhere(s[1..], key, k, f, j);
    }
  }

  /** After removing the elements keyed `k`, a lookup of `k` fails and every other lookup is unchanged. */
  lemma {:induction false} FindRemoveWhere<T(!new)>(s: seq<T>, key: T -> int, k: int, j: int)
    ensures Find(RemoveWhere(s, key, k), key, j) == if j == k then None else Find(s, key, j)
  {
    if s != [] {
      FindRemoveWhere(s[1..], key, k, j);
    }
  }

  /** Appending an element never hides an earlier match: lookups find the first one. */
  lemma {:induction false} FindAppend<T(!new)>(s: seq<T>, x: T, key: T -> int, j: int)
    ensures Find(s + [x], key, j) ==
      if Find(s, key, j).Some? then Find(s, key, j) else if key(x) == j then Some(x) else None
  {
    if s == [] {
      assert s + [x] == [x];
    } else {
      assert (s + [x])[1..] == s[1..] + [x];
      FindAppend(s[1..], x, key, j);
    }
  }

  // ---------------------------------------------------------------- sums over numeric records

  /** A set is empty or has an element. */
  lemma EmptyOrElement(s: set<int>)
    ensures s == {} || exists x :: x in s
  {
    if !exists x :: x in s {
      assert s == {};
    }
  }

  /** A non-empty set of integers has a least element. */
  lemma {:induction false} MinimumExists(s: set<int>)
    requires s != {}
    ensures exists k :: k in s && forall j :: j in s ==> k <= j
    decreases |s|
  {
    EmptyOrElement(s);
    var x :| x in s;
    var rest := s - {x};
    EmptyOrElement(rest);
    if rest == {} {
      assert s == rest + {x};
    } else {
      assert |rest| < |s| by {
        assert s == rest + {x};
      }
      MinimumExists(rest);
      var m :| m in rest && forall j :: j in rest ==> m <= j;
      var least := if x < m then x else m;
      assert least in s;
      forall j | j in s
        ensures least <= j
      {
        if j != x {
          assert j in rest;
        }
      }
    }
  }

  /** The least key of a non-empty numeric record. */
  function MinKey(m: map<int, int>): (k: int)
    requires m != map[]
    ensures k in m && forall j :: j in m ==> k <= j
  {
    MinimumExists(m.Keys);
    var k :| k in m.Keys && forall j :: j in m.Keys ==> k <= j;
    k
  }

  /** `Object.values(m).reduce((sum, v) => sum + v, 0)`, adding the values in key order. */
  function SumValues(m: map<int, int>): int
    decreases |m|
  {
    if m == map[] then 0
    else
      var k := MinKey(m);
      assert |m - {k}| < |m| by {
        assert m.Keys == (m - {k}).Keys + {k};
      }
      m[k] + SumValues(m - {k})
  }

  /** The sum can be split at any key, whatever order the values are added in. */
  lemma {:induction false} SumValuesRemove(m: map<int, int>, k: int)
    requires k in m
    ensures SumValues(m) == m[k] + SumValues(m - {k})
    decreases |m|
  {
    var j := MinKey(m);
    if j != k {
      var rest := m - {j};
      assert |rest| < |m| by {
        assert m.Keys == rest.Keys + {j};
      }
      SumValuesRemove(rest, k);
      var both := rest - {k};
      var m' := m - {k};
      assert m' != map[] && j in m';
      assert MinKey(m') == j by {
        assert forall i :: i in m' ==> j <= i;
      }
      assert m' - {j} == both;
    }
  }

  /** Setting one entry changes the sum by the difference of that entry's new and old value. */
  lemma SumValuesUpdate(m: map<int, int>, k: int, v: int)
    ensures SumValues(m[k := v]) == SumValues(m) - (if k in m then m[k] else 0) + v
  {
    var m' := m[k := v];
    SumValuesRemove(m', k);
    assert m' - {k} == m - {k};
    if k in m {
      SumValuesRemove(m, k);
    } else {
      assert m - {k} == m;
    }
  }

  /** A record of non-negative values has a non-negative sum. */
  lemma {:induction false} SumValuesNonNegative(m: map<int, int>)
    requires forall k :: k in m ==> m[k] >= 0
    ensures SumValues(m) >= 0
    decreases |m|
  {
    if m != map[] {
      var k := MinKey(m);
      assert |m - {k}| < |m| by {
        assert m.Keys == (m - {k}).Keys + {k};
      }
      SumValuesNonNegative(m - {k});
    }
  }
}
