/**
 * The two sorts the pipeline calls: the default Array.prototype.sort on
 * strings (code unit by code unit, a proper prefix first) and the stable
 * sort by a numeric key in descending order that
 * `.sort((a, b) => key(b) - key(a))` performs.
 */
module Sorting {
  import opened Sequences

  /** `a` comes no later than `b` in the default string order. */
  predicate LessEq(a: string, b: string)
    decreases |a|
  {
    a == [] || (b != [] && (a[0] < b[0] || (a[0] == b[0] && LessEq(a[1..], b[1..]))))
  }

  lemma {:induction false} LessEqTotal(a: string, b: string)
    ensures LessEq(a, b) || LessEq(b, a)
    decreases |a|
  {
    if a != [] && b != [] && a[0] == b[0] {
      LessEqTotal(a[1..], b[1..]);
    }
  }

  lemma {:induction false} LessEqAntisymmetric(a: string, b: string)
    requires LessEq(a, b) && LessEq(b, a)
    ensures a == b
    decreases |a|
  {
    if a != [] {
      LessEqAntisymmetric(a[1..], b[1..]);
      assert a == [a[0]] + a[1..] && b == [b[0]] + b[1..];
    }
  }

  lemma {:induction false} LessEqTransitive(a: string, b: string, c: string)
    requires LessEq(a, b) && LessEq(b, c)
    ensures LessEq(a, c)
    decreases |a|
  {
    if a != [] && a[0] == b[0] && b[0] == c[0] {
      LessEqTransitive(a[1..], b[1..], c[1..]);
    }
  }

  ghost predicate Sorted(s: seq<string>) {
    forall i, j :: 0 <= i < j < |s| ==> LessEq(s[i], s[j])
  }

  /** Sorted and free of duplicates: each element strictly before the next. */
  ghost predicate StrictlySorted(s: seq<string>) {
    forall i, j :: 0 <= i < j < |s| ==> LessEq(s[i], s[j]) && s[i] != s[j]
  }

  function InsertString(x: string, s: seq<string>): (r: seq<string>)
    requires Sorted(s)
    ensures Sorted(r) && multiset(r) == multiset(s) + multiset{x}
  {
    if s == [] then [x]
    else if LessEq(x, s[0]) then
      assert forall j :: 0 <= j < |s| ==> LessEq(x, s[j]) by {
        forall j | 0 <= j < |s| ensures LessEq(x, s[j]) {
          if j > 0 {
            LessEqTransitive(x, s[0], s[j]);
          }
        }
      }
      ConsSorted(x, s);
      [x] + s
    else
      LessEqTotal(x, s[0]);
      var rest := InsertString(x, s[1..]);
      assert s == [s[0]] + s[1..];
      HeadBoundsStrings(s[0], s[1..], x, rest);
      ConsSorted(s[0], rest);
      [s[0]] + rest
  }

  /** A head no later than every element keeps a sorted sequence sorted. */
  lemma ConsSorted(h: string, s: seq<string>)
    requires Sorted(s)
    requires forall j :: 0 <= j < |s| ==> LessEq(h, s[j])
    ensures Sorted([h] + s)
  {
    var r := [h] + s;
    forall i, j | 0 <= i < j < |r| ensures LessEq(r[i], r[j]) {
      assert r[j] == s[j - 1];
      if i > 0 {
        assert r[i] == s[i - 1];
      }
    }
  }

  /** A string no later than those of `s` and than `x` is no later than any rearrangement of `s` with `x` added. */
  lemma HeadBoundsStrings(h: string, s: seq<string>, x: string, rest: seq<string>)
    requires Sorted([h] + s) && LessEq(h, x)
    requires multiset(rest) == multiset(s) + multiset{x}
    ensures forall j :: 0 <= j < |rest| ==> LessEq(h, rest[j])
  {
    forall j | 0 <= j < |rest| ensures LessEq(h, rest[j]) {
      assert rest[j] in multiset(rest);
      assert ([h] + s)[0] == h;
      if rest[j] != x {
        assert rest[j] in multiset(s);
        var i :| 0 <= i < |s| && s[i] == rest[j];
        assert ([h] + s)[i + 1] == s[i];
      }
    }
  }

  /** `Array.from(values).sort()` on strings. */
  function SortStrings(s: seq<string>): (r: seq<string>)
    ensures Sorted(r) && multiset(r) == multiset(s)
    ensures Distinct(s) ==> StrictlySorted(r)
  {
    if s == [] then []
    else
      var r := InsertString(s[|s| - 1], SortStrings(s[..|s| - 1]));
      assert s == s[..|s| - 1] + [s[|s| - 1]];
      DistinctMultiplicity(s);
      DistinctMultiplicity(r);
      r
  }

  /** Sorting keeps exactly the strings it was given. */
  lemma SortStringsMembers(s: seq<string>)
    ensures forall x :: x in SortStrings(s) <==> x in s
  {
    assert forall x :: x in SortStrings(s) <==> x in multiset(SortStrings(s));
  }

  ghost predicate NonIncreasing<T>(s: seq<T>, key: T -> int) {
    forall i, j :: 0 <= i < j < |s| ==> key(s[i]) >= key(s[j])
  }

  /** The elements of `s` whose key is `v`, in the order of `s`. */
  function WithKey<T>(s: seq<T>, key: T -> int, v: int): seq<T> {
    if s == [] then []
    else (if key(s[0]) == v then [s[0]] else []) + WithKey(s[1..], key, v)
  }

  lemma {:induction false} WithKeyAppend<T>(a: seq<T>, b: seq<T>, key: T -> int, v: int)
    ensures WithKey(a + b, key, v) == WithKey(a, key, v) + WithKey(b, key, v)
  {
    if a == [] {
      assert a + b == b;
    } else {
      var h := a[0];
      assert a == [h] + a[1..];
      assert a + b == [h] + (a[1..] + b);
      WithKeyCons(h, a[1..], key, v);
      WithKeyCons(h, a[1..] + b, key, v);
      WithKeyAppend(a[1..], b, key, v);
    }
  }

  lemma {:induction false} WithKeyNone<T>(s: seq<T>, key: T -> int, v: int)
    requires forall i :: 0 <= i < |s| ==> key(s[i]) != v
    ensures WithKey(s, key, v) == []
  {
    if s != [] {
      WithKeyNone(s[1..], key, v);
    }
  }

  /** Places `x` after every element whose key is at least its own. */
  function InsertByKey<T>(x: T, s: seq<T>, key: T -> int): (r: seq<T>)
    requires NonIncreasing(s, key)
    ensures NonIncreasing(r, key) && multiset(r) == multiset(s) + multiset{x}
  {
    if s == [] then [x]
    else if key(s[0]) < key(x) then
      assert s == [s[0]] + s[1..];
      ConsNonIncreasing(x, s, key);
      [x] + s
    else
      var rest := InsertByKey(x, s[1..], key);
      assert s == [s[0]] + s[1..];
      HeadBoundsInsert(s[0], s[1..], x, rest, key);
      ConsNonIncreasing(s[0], rest, key);
      [s[0]] + rest
  }

  /** A head whose key bounds every key after it keeps a non-increasing sequence non-increasing. */
  lemma ConsNonIncreasing<T>(h: T, s: seq<T>, key: T -> int)
    requires NonIncreasing(s, key)
    requires forall j :: 0 <= j < |s| ==> key(h) >= key(s[j])
    ensures NonIncreasing([h] + s, key)
  {
    var r := [h] + s;
    forall i, j | 0 <= i < j < |r| ensures key(r[i]) >= key(r[j]) {
      assert r[j] == s[j - 1];
      if i > 0 {
        assert r[i] == s[i - 1];
      }
    }
  }

  /** A key that bounds those of `s` and of `x` bounds those of any rearrangement of `s` with `x` added. */
  lemma HeadBoundsInsert<T>(h: T, s: seq<T>, x: T, rest: seq<T>, key: T -> int)
    requires NonIncreasing([h] + s, key) && key(h) >= key(x)
    requires multiset(rest) == multiset(s) + multiset{x}
    ensures forall j :: 0 <= j < |rest| ==> key(h) >= key(rest[j])
  {
    forall j | 0 <= j < |rest| ensures key(h) >= key(rest[j]) {
      assert rest[j] in multiset(rest);
      assert ([h] + s)[0] == h;
      if rest[j] != x {
        assert rest[j] in multiset(s);
        var i :| 0 <= i < |s| && s[i] == rest[j];
        assert ([h] + s)[i + 1] == s[i];
      }
    }
  }

  /** The elements of key `v` in a sequence with a head: the head, if it has key `v`, then those of the rest. */
  lemma WithKeyCons<T>(h: T, s: seq<T>, key: T -> int, v: int)
    ensures WithKey([h] + s, key, v) == (if key(h) == v then [h] else []) + WithKey(s, key, v)
  {
    assert ([h] + s)[0] == h;
    assert ([h] + s)[1..] == s;
  }

  /** `x` goes in front when its key exceeds all others: no element before it shares its key. */
  lemma InsertFrontStable<T>(x: T, s: seq<T>, key: T -> int, v: int)
    requires NonIncreasing(s, key)
    requires s == [] || key(s[0]) < key(x)
    ensures WithKey([x] + s, key, v) == WithKey(s, key, v) + (if key(x) == v then [x] else [])
  {
    WithKeyCons(x, s, key, v);
    if key(x) == v {
      forall i | 0 <= i < |s| ensures key(s[i]) != v {
        if i > 0 {
          assert key(s[0]) >= key(s[i]);
        }
      }
      WithKeyNone(s, key, v);
    }
  }

  /** Inserting keeps the elements of each key in order and puts `x` last among its equals. */
  lemma {:induction false} InsertByKeyStable<T>(x: T, s: seq<T>, key: T -> int, v: int)
    requires NonIncreasing(s, key)
    ensures WithKey(InsertByKey(x, s, key), key, v) == WithKey(s, key, v) + (if key(x) == v then [x] else [])
  {
    var tail: seq<T> := if key(x) == v then [x] else [];
    if s == [] || key(s[0]) < key(x) {
      assert InsertByKey(x, s, key) == [x] + s;
      InsertFrontStable(x, s, key, v);
    } else {
      var rest := InsertByKey(x, s[1..], key);
      assert InsertByKey(x, s, key) == [s[0]] + rest;
      InsertByKeyStable(x, s[1..], key, v);
      var head: seq<T> := if key(s[0]) == v then [s[0]] else [];
      WithKeyCons(s[0], rest, key, v);
      assert WithKey(s, key, v) == head + WithKey(s[1..], key, v);
      AppendAssociative(head, WithKey(s[1..], key, v), tail);
    }
  }

  /**
   * A stable sort, largest key first: the result is non-increasing, a
   * permutation of `s`, and the elements sharing a key keep their order.
   */
  function SortByKeyDesc<T>(s: seq<T>, key: T -> int): (r: seq<T>)
    ensures NonIncreasing(r, key) && multiset(r) == multiset(s)
    ensures forall v :: WithKey(r, key, v) == WithKey(s, key, v)
  {
    if s == [] then []
    else
      var init := s[..|s| - 1];
      var r := InsertByKey(s[|s| - 1], SortByKeyDesc(init, key), key);
      assert s == init + [s[|s| - 1]];
      assert forall v :: WithKey(s, key, v) == WithKey(init, key, v) + (if key(s[|s| - 1]) == v then [s[|s| - 1]] else []) by {
        forall v ensures WithKey(s, key, v) == WithKey(init, key, v) + (if key(s[|s| - 1]) == v then [s[|s| - 1]] else []) {
          WithKeyAppend(init, [s[|s| - 1]], key, v);
        }
      }
      assert forall v :: WithKey(r, key, v) == WithKey(SortByKeyDesc(init, key), key, v) + (if key(s[|s| - 1]) == v then [s[|s| - 1]] else []) by {
        forall v ensures WithKey(r, key, v) == WithKey(SortByKeyDesc(init, key), key, v) + (if key(s[|s| - 1]) == v then [s[|s| - 1]] else []) {
          InsertByKeyStable(s[|s| - 1], SortByKeyDesc(init, key), key, v);
        }
      }
      r
  }
}
