/** `list.sort(key=...)`, which the core uses to rank time slots by distance
    and restaurants by score. Python's sort is stable, and so is its
    `reverse=True` form, which is the same as sorting by the negated key. */
module Sorting {
  import opened Python

  /** Keys never decrease along `s`. */
  predicate SortedBy<T>(s: seq<T>, key: T -> int)
  {
    forall i, j :: 0 <= i < j < |s| ==> key(s[i]) <= key(s[j])
  }

  /** Places `x` in front of the first element whose key is at least its own. */
  function InsertByKey<T>(x: T, s: seq<T>, key: T -> int): (r: seq<T>)
    ensures |r| == |s| + 1
    ensures multiset(r) == multiset(s) + multiset{x}
  {
    if s == [] || key(x) <= key(s[0]) then [x] + s
    else
      assert s == [s[0]] + s[1..];
      [s[0]] + InsertByKey(x, s[1..], key)
  }

  /** A stable sort by `key`, written as insertion sort. */
  function SortByKey<T>(s: seq<T>, key: T -> int): (r: seq<T>)
    ensures |r| == |s|
    ensures multiset(r) == multiset(s)
  {
    if s == [] then []
    else
      assert s == [s[0]] + s[1..];
      InsertByKey(s[0], SortByKey(s[1..], key), key)
  }

  lemma {:induction false} InsertSorted<T>(x: T, s: seq<T>, key: T -> int)
    requires SortedBy(s, key)
    ensures SortedBy(InsertByKey(x, s, key), key)
  {
    if s != [] && key(x) > key(s[0]) {
      SortedTail(s, key);
      InsertSorted(x, s[1..], key);
      var rest := InsertByKey(x, s[1..], key);
      forall y | y in rest ensures key(s[0]) <= key(y) {
        InsertMember(x, s[1..], key, y);
      }
      SortedCons(s[0], rest, key);
    }
  }

  lemma InsertMember<T>(x: T, s: seq<T>, key: T -> int, y: T)
    requires y in InsertByKey(x, s, key)
    ensures y == x || y in s
  {
    assert y in multiset(InsertByKey(x, s, key));
  }

  /** A key no larger than every key of a sorted sequence can go in front. */
  lemma SortedCons<T>(y: T, s: seq<T>, key: T -> int)
    requires SortedBy(s, key)
    requires forall z :: z in s ==> key(y) <= key(z)
    ensures SortedBy([y] + s, key)
  {
    var r := [y] + s;
    forall i, j | 0 <= i < j < |r| ensures key(r[i]) <= key(r[j]) {
      assert r[j] == s[j - 1];
      if i > 0 {
        assert r[i] == s[i - 1];
      } else {
        assert s[j - 1] in s;
      }
    }
  }

  /** The result is ordered by key. */
  lemma {:induction false} SortByKeySorted<T>(s: seq<T>, key: T -> int)
    ensures SortedBy(SortByKey(s, key), key)
  {
    if s != [] {
      SortByKeySorted(s[1..], key);
      InsertSorted(s[0], SortByKey(s[1..], key), key);
    }
  }

  /** The elements of `s` whose key is `v`, in order. */
  function WithKey<T>(s: seq<T>, key: T -> int, v: int): seq<T>
  {
    if s == [] then []
    else (if key(s[0]) == v then [s[0]] else []) + WithKey(s[1..], key, v)
  }

  lemma WithKeyCons<T>(y: T, t: seq<T>, key: T -> int, v: int)
    ensures WithKey([y] + t, key, v) == (if key(y) == v then [y] else []) + WithKey(t, key, v)
  {
    assert ([y] + t)[1..] == t;
  }

  lemma SortedTail<T>(s: seq<T>, key: T -> int)
    requires s != [] && SortedBy(s, key)
    ensures SortedBy(s[1..], key)
  {
    forall i, j | 0 <= i < j < |s[1..]| ensures key(s[1..][i]) <= key(s[1..][j]) {
      assert s[1..][i] == s[i + 1] && s[1..][j] == s[j + 1];
    }
  }

  lemma {:induction false} InsertWithKey<T>(x: T, s: seq<T>, key: T -> int, v: int)
    requires SortedBy(s, key)
    ensures WithKey(InsertByKey(x, s, key), key, v) ==
            (if key(x) == v then [x] else []) + WithKey(s, key, v)
  {
    if s == [] || key(x) <= key(s[0]) {
      WithKeyCons(x, s, key, v);
    } else {
      SortedTail(s, key);
      InsertWithKey(x, s[1..], key, v);
      var rest := InsertByKey(x, s[1..], key);
      WithKeyCons(s[0], rest, key, v);
      WithKeyCons(s[0], s[1..], key, v);
      assert [s[0]] + s[1..] == s;
    }
  }

  /** Stability: for every key, the elements carrying it keep their order. */
  lemma {:induction false} SortByKeyStable<T>(s: seq<T>, key: T -> int, v: int)
    ensures WithKey(SortByKey(s, key), key, v) == WithKey(s, key, v)
  {
    if s != [] {
      SortByKeyStable(s[1..], key, v);
      SortByKeySorted(s[1..], key);
      InsertWithKey(s[0], SortByKey(s[1..], key), key, v);
    }
  }

  /** `g` strictly grows along `s`. */
  predicate Ascends<T>(s: seq<T>, g: T -> int)
  {
    forall i, j :: 0 <= i < j < |s| ==> g(s[i]) < g(s[j])
  }

  /** Ordered by `key`, and by `g` among equal keys. */
  predicate SortedThenBy<T>(s: seq<T>, key: T -> int, g: T -> int)
  {
    forall i, j :: 0 <= i < j < |s| ==> key(s[i]) < key(s[j]) || (key(s[i]) == key(s[j]) && g(s[i]) < g(s[j]))
  }

  /** Stability made concrete: sorting by `key` a list that ascends under `g`
      breaks ties between equal keys in favour of the smaller `g`. */
  lemma {:induction false} SortByKeyTies<T>(s: seq<T>, key: T -> int, g: T -> int)
    requires Ascends(s, g)
    ensures SortedThenBy(SortByKey(s, key), key, g)
  {
    if s != [] {
      var tail := s[1..];
      assert Ascends(tail, g) by {
        forall i, j | 0 <= i < j < |tail| ensures g(tail[i]) < g(tail[j]) {
          assert tail[i] == s[i + 1] && tail[j] == s[j + 1];
        }
      }
      SortByKeyTies(tail, key, g);
      var sorted := SortByKey(tail, key);
      forall y | y in sorted ensures g(s[0]) < g(y) {
        assert y in multiset(sorted);
        var k :| 0 <= k < |tail| && tail[k] == y;
        assert s[k + 1] == y;
      }
      InsertThenBy(s[0], sorted, key, g);
    }
  }

  lemma {:induction false} InsertThenBy<T>(x: T, s: seq<T>, key: T -> int, g: T -> int)
    requires SortedThenBy(s, key, g)
    requires forall y :: y in s ==> g(x) < g(y)
    ensures SortedThenBy(InsertByKey(x, s, key), key, g)
  {
    if s == [] || key(x) <= key(s[0]) {
      var r := [x] + s;
      forall i, j | 0 <= i < j < |r|
        ensures key(r[i]) < key(r[j]) || (key(r[i]) == key(r[j]) && g(r[i]) < g(r[j]))
      {
        assert r[j] == s[j - 1] && s[j - 1] in s;
        if i > 0 {
          assert r[i] == s[i - 1];
        } else if j > 1 {
          assert key(s[0]) <= key(s[j - 1]);
        }
      }
    } else {
      var tail := s[1..];
      assert SortedThenBy(tail, key, g) by {
        forall i, j | 0 <= i < j < |tail|
          ensures key(tail[i]) < key(tail[j]) || (key(tail[i]) == key(tail[j]) && g(tail[i]) < g(tail[j]))
        {
          assert tail[i] == s[i + 1] && tail[j] == s[j + 1];
        }
      }
      forall y | y in tail ensures g(x) < g(y) {
        assert y in s;
      }
      InsertThenBy(x, tail, key, g);
      var rest := InsertByKey(x, tail, key);
      forall y | y in rest ensures key(s[0]) < key(y) || (key(s[0]) == key(y) && g(s[0]) < g(y)) {
        InsertMember(x, tail, key, y);
        if y != x {
          var k :| 0 <= k < |tail| && tail[k] == y;
          assert s[k + 1] == y;
        }
      }
      ThenByCons(s[0], rest, key, g);
    }
  }

  lemma ThenByCons<T>(y: T, s: seq<T>, key: T -> int, g: T -> int)
    requires SortedThenBy(s, key, g)
    requires forall z :: z in s ==> key(y) < key(z) || (key(y) == key(z) && g(y) < g(z))
    ensures SortedThenBy([y] + s, key, g)
  {
    var r := [y] + s;
    forall i, j | 0 <= i < j < |r|
      ensures key(r[i]) < key(r[j]) || (key(r[i]) == key(r[j]) && g(r[i]) < g(r[j]))
    {
      assert r[j] == s[j - 1];
      if i > 0 {
        assert r[i] == s[i - 1];
      } else {
        assert s[j - 1] in s;
      }
    }
  }

  lemma SortedThenByPrefix<T>(s: seq<T>, key: T -> int, g: T -> int, k: nat)
    requires k <= |s| && SortedThenBy(s, key, g)
    ensures SortedThenBy(s[..k], key, g)
  {
    var p := s[..k];
    forall i, j | 0 <= i < j < |p| ensures key(p[i]) < key(p[j]) || (key(p[i]) == key(p[j]) && g(p[i]) < g(p[j])) {
      assert p[i] == s[i] && p[j] == s[j];
    }
  }

  // ---------------------------------------------------------------- sorted(strs)

  /** Python's order on str never decreases along `s`. */
  predicate TextSorted(s: seq<string>)
  {
    forall i, j :: 0 <= i < j < |s| ==> LexLe(s[i], s[j])
  }

  function InsertText(x: string, s: seq<string>): (r: seq<string>)
    ensures multiset(r) == multiset(s) + multiset{x}
  {
    if s == [] || LexLe(x, s[0]) then [x] + s
    else
      assert s == [s[0]] + s[1..];
      [s[0]] + InsertText(x, s[1..])
  }

  /** `sorted(strs)`, written as insertion sort. */
  function SortText(s: seq<string>): (r: seq<string>)
    ensures multiset(r) == multiset(s)
  {
    if s == [] then []
    else
      assert s == [s[0]] + s[1..];
      InsertText(s[0], SortText(s[1..]))
  }

  lemma {:induction false} InsertTextSorted(x: string, s: seq<string>)
    requires TextSorted(s)
    ensures TextSorted(InsertText(x, s))
  {
    if s == [] || LexLe(x, s[0]) {
      forall y | y in s ensures LexLe(x, y) {
        var k :| 0 <= k < |s| && s[k] == y;
        if k > 0 {
          LexTransitive(x, s[0], y);
        }
      }
      TextSortedCons(x, s);
    } else {
      LexTotal(x, s[0]);
      var tail := s[1..];
      TextSortedTail(s);
      InsertTextSorted(x, tail);
      var rest := InsertText(x, tail);
      forall y | y in rest ensures LexLe(s[0], y) {
        assert y in multiset(rest);
        if y != x {
          assert y in multiset(tail);
          var k :| 0 <= k < |tail| && tail[k] == y;
          assert s[k + 1] == y;
        }
      }
      TextSortedCons(s[0], rest);
    }
  }

  lemma TextSortedTail(s: seq<string>)
    requires s != [] && TextSorted(s)
    ensures TextSorted(s[1..])
  {
    var tail := s[1..];
    forall i, j | 0 <= i < j < |tail| ensures LexLe(tail[i], tail[j]) {
      assert tail[i] == s[i + 1] && tail[j] == s[j + 1];
    }
  }

  lemma TextSortedCons(x: string, s: seq<string>)
    requires TextSorted(s) && forall y :: y in s ==> LexLe(x, y)
    ensures TextSorted([x] + s)
  {
    var r := [x] + s;
    forall i, j | 0 <= i < j < |r| ensures LexLe(r[i], r[j]) {
      assert r[j] == s[j - 1];
      if i > 0 {
        assert r[i] == s[i - 1];
      } else {
        assert s[j - 1] in s;
      }
    }
  }

  /** `sorted` returns its argument in Python's string order. */
  lemma {:induction false} SortTextSorted(s: seq<string>)
    ensures TextSorted(SortText(s))
  {
    if s != [] {
      SortTextSorted(s[1..]);
      InsertTextSorted(s[0], SortText(s[1..]));
    }
  }
}
