/**
 * A stable sort by a "goes before" relation, as JavaScript's `Array.prototype.sort`
 * (stable since ECMAScript 2019) uses it. `lt(a, b)` holds when the comparator
 * places `a` strictly before `b`; under a strict weak order, elements the
 * comparator treats as equal keep their original relative order (`SortStable`).
 * The backend's `ORDER BY` is modelled with the same sort, which settles ties
 * by the order of its input: one of the orders a database may return.
 */
module Sorting {
  import opened Lists

  /** `lt` is a strict order: asymmetric and transitive. */
  ghost predicate StrictOrder<T(!new)>(lt: (T, T) -> bool)
  {
    && (forall a, b :: lt(a, b) ==> !lt(b, a))
    && (forall a, b, c :: lt(a, b) && lt(b, c) ==> lt(a, c))
  }

  /** No element is placed strictly before an element that precedes it. */
  ghost predicate SortedBy<T>(s: seq<T>, lt: (T, T) -> bool)
  {
    forall i, j :: 0 <= i < j < |s| ==> !lt(s[j], s[i])
  }

  /** Inserts `x` after every element it does not go strictly before. */
  function Insert<T>(x: T, t: seq<T>, lt: (T, T) -> bool): (r: seq<T>)
    ensures |r| == |t| + 1
    ensures multiset(r) == multiset(t) + multiset{x}
  {
    if t == [] then [x]
    else if lt(x, t[0]) then [x] + t
    else
      assert t == [t[0]] + t[1..];
      [t[0]] + Insert(x, t[1..], lt)
  }

  /** Insertion sort, taking the elements from the front so that ties keep their order. */
  function Sort<T>(s: seq<T>, lt: (T, T) -> bool): (r: seq<T>)
    ensures |r| == |s|
    ensures multiset(r) == multiset(s)
  {
    if s == [] then []
    else
      assert s == s[..|s| - 1] + [s[|s| - 1]];
      Insert(s[|s| - 1], Sort(s[..|s| - 1], lt), lt)
  }

  lemma {:induction false} InsertSorted<T(!new)>(x: T, t: seq<T>, lt: (T, T) -> bool)
    requires StrictOrder(lt)
    requires SortedBy(t, lt)
    ensures SortedBy(Insert(x, t, lt), lt)
  {
    if t == [] {
    } else if lt(x, t[0]) {
      var r := [x] + t;
      forall i, j | 0 <= i < j < |r| ensures !lt(r[j], r[i]) {
        if i == 0 && j > 1 {
          assert !lt(t[j - 1], t[0]);
        }
      }
    } else {
      var rest := Insert(x, t[1..], lt);
      assert SortedBy(t[1..], lt);
      InsertSorted(x, t[1..], lt);
      var r := [t[0]] + rest;
      forall i, j | 0 <= i < j < |r| ensures !lt(r[j], r[i]) {
        if i == 0 {
          var y := rest[j - 1];
          assert y in multiset(rest);
          assert y == x || y in multiset(t[1..]);
          if y != x {
            var k :| 0 <= k < |t[1..]| && t[1..][k] == y;
            assert t[k + 1] == y;
          }
        }
      }
    }
  }

  /** The sort's output is ordered by `lt`. */
  lemma {:induction false} SortSorted<T(!new)>(s: seq<T>, lt: (T, T) -> bool)
    requires StrictOrder(lt)
    ensures SortedBy(Sort(s, lt), lt)
  {
    if s != [] {
      SortSorted(s[..|s| - 1], lt);
      InsertSorted(s[|s| - 1], Sort(s[..|s| - 1], lt), lt);
    }
  }

  /** Sorting a list that is already ordered leaves it unchanged. */
  lemma {:induction false} InsertAtEnd<T>(x: T, t: seq<T>, lt: (T, T) -> bool)
    requires forall i :: 0 <= i < |t| ==> !lt(x, t[i])
    ensures Insert(x, t, lt) == t + [x]
  {
    if t != [] {
      InsertAtEnd(x, t[1..], lt);
      assert [t[0]] + (t[1..] + [x]) == t + [x];
    }
  }

  lemma {:induction false} SortOfSorted<T(!new)>(s: seq<T>, lt: (T, T) -> bool)
    requires SortedBy(s, lt)
    ensures Sort(s, lt) == s
  {
    if s != [] {
      var init := s[..|s| - 1];
      assert SortedBy(init, lt);
      SortOfSorted(init, lt);
      InsertAtEnd(s[|s| - 1], init, lt);
      assert init + [s[|s| - 1]] == s;
    }
  }

  /**
   * `lt` is a strict weak order, as every comparator that compares keys is:
   * asymmetric, and if `a` goes before `c`, any `b` goes after `a` or before
   * `c`. The laws are stated through `Asymmetric` and `Between` so that a proof
   * uses them only where it names them.
   */
  ghost predicate StrictWeakOrder<T(!new)>(lt: (T, T) -> bool)
  {
    && (forall a, b :: Asymmetric(lt, a, b))
    && (forall a, b, c :: Between(lt, a, b, c))
  }

  predicate Asymmetric<T>(lt: (T, T) -> bool, a: T, b: T)
  {
    lt(a, b) ==> !lt(b, a)
  }

  /** If `a` goes before `c`, then `b` goes after `a` or before `c`. */
  predicate Between<T>(lt: (T, T) -> bool, a: T, b: T, c: T)
  {
    lt(a, c) ==> lt(a, b) || lt(b, c)
  }

  /** Neither goes before the other: the comparator treats them as equal. */
  predicate Tied<T>(lt: (T, T) -> bool, a: T, b: T)
  {
    !lt(a, b) && !lt(b, a)
  }

  /** The elements tied with `c`, as a filter condition. */
  function TiedWith<T>(lt: (T, T) -> bool, c: T): T -> bool
  {
    y => Tied(lt, y, c)
  }

  /** A strict weak order is a strict order. */
  lemma StrictWeakIsStrict<T(!new)>(lt: (T, T) -> bool)
    requires StrictWeakOrder(lt)
    ensures StrictOrder(lt)
  {
    forall a, b | lt(a, b) ensures !lt(b, a) {
      assert Asymmetric(lt, a, b);
    }
    forall a, b, c | lt(a, b) && lt(b, c) ensures lt(a, c) {
      assert Between(lt, a, c, b);
      assert Asymmetric(lt, b, c);
    }
  }

  /** One use of the weak-order law. */
  lemma WeakOrderStep<T(!new)>(lt: (T, T) -> bool, a: T, b: T, c: T)
    requires StrictWeakOrder(lt)
    requires lt(a, c)
    ensures lt(a, b) || lt(b, c)
  {
    assert Between(lt, a, b, c);
  }

  /** Past an element that `x` goes before, a sorted list holds nothing tied with `x`'s ties. */
  lemma NoTiesAfter<T(!new)>(x: T, t: seq<T>, lt: (T, T) -> bool, c: T)
    requires StrictWeakOrder(lt)
    requires SortedBy(t, lt)
    requires t != [] && lt(x, t[0]) && Tied(lt, x, c)
    ensures Filter(t, TiedWith(lt, c)) == []
  {
    forall j | 0 <= j < |t| ensures !TiedWith(lt, c)(t[j]) {
      if j > 0 {
        assert !lt(t[j], t[0]);
      } else {
        assert Asymmetric(lt, t[0], t[0]);
      }
      WeakOrderStep(lt, x, t[j], t[0]);
      WeakOrderStep(lt, x, c, t[j]);
    }
    FilterNone(t, TiedWith(lt, c));
  }

  lemma AppendAssociative<T>(a: seq<T>, b: seq<T>, c: seq<T>)
    ensures a + (b + c) == (a + b) + c
  {
  }

  /** Inserted in front, `x` comes after its ties because a sorted list holds none of them past it. */
  lemma InsertAtHeadKeepsTies<T(!new)>(x: T, t: seq<T>, lt: (T, T) -> bool, c: T)
    requires StrictWeakOrder(lt)
    requires SortedBy(t, lt)
    requires t != [] && lt(x, t[0])
    ensures Filter([x] + t, TiedWith(lt, c)) == Filter(t, TiedWith(lt, c)) + (if Tied(lt, x, c) then [x] else [])
  {
    var p := TiedWith(lt, c);
    var r := [x] + t;
    assert r[1..] == t;
    if Tied(lt, x, c) {
      NoTiesAfter(x, t, lt, c);
    }
  }

  /** Inserting into a sorted list puts a tie of `c` after every earlier tie of `c`. */
  lemma {:induction false} InsertKeepsTies<T(!new)>(x: T, t: seq<T>, lt: (T, T) -> bool, c: T)
    requires StrictWeakOrder(lt)
    requires SortedBy(t, lt)
    ensures Filter(Insert(x, t, lt), TiedWith(lt, c)) ==
      Filter(t, TiedWith(lt, c)) + (if Tied(lt, x, c) then [x] else [])
  {
    var p := TiedWith(lt, c);
    if t == [] {
    } else if lt(x, t[0]) {
      InsertAtHeadKeepsTies(x, t, lt, c);
    } else {
      var tail := t[1..];
      var rest := Insert(x, tail, lt);
      assert SortedBy(tail, lt);
      InsertKeepsTies(x, tail, lt, c);
      var r := [t[0]] + rest;
      assert Insert(x, t, lt) == r;
      assert r[1..] == rest;
      var head := if p(t[0]) then [t[0]] else [];
      var extra := if Tied(lt, x, c) then [x] else [];
      assert Filter(rest, p) == Filter(tail, p) + extra;
      assert Filter(r, p) == head + Filter(rest, p);
      assert Filter(t, p) == head + Filter(tail, p);
      AppendAssociative(head, Filter(tail, p), extra);
    }
  }

  /** Inserting into a sorted prefix puts a tie of `c` after the earlier ties. */
  lemma InsertIntoSortKeepsTies<T(!new)>(x: T, s: seq<T>, lt: (T, T) -> bool, c: T)
    requires StrictWeakOrder(lt)
    ensures Filter(Insert(x, Sort(s, lt), lt), TiedWith(lt, c)) ==
      Filter(Sort(s, lt), TiedWith(lt, c)) + (if Tied(lt, x, c) then [x] else [])
  {
    StrictWeakIsStrict(lt);
    SortSorted(s, lt);
    InsertKeepsTies(x, Sort(s, lt), lt, c);
  }

  /** One step of the sort keeps the ties of `c` in order if the step before did. */
  lemma StableStep<T(!new)>(init: seq<T>, last: T, lt: (T, T) -> bool, c: T)
    requires StrictWeakOrder(lt)
    requires Filter(Sort(init, lt), TiedWith(lt, c)) == Filter(init, TiedWith(lt, c))
    ensures Filter(Sort(init + [last], lt), TiedWith(lt, c)) == Filter(init + [last], TiedWith(lt, c))
  {
    var p := TiedWith(lt, c);
    var s := init + [last];
    var extra := if Tied(lt, last, c) then [last] else [];
    assert s[..|s| - 1] == init && s[|s| - 1] == last;
    assert Sort(s, lt) == Insert(last, Sort(init, lt), lt);
    assert [last][1..] == [];
    assert Filter([last], p) == extra;
    FilterAppend(init, [last], p);
    InsertIntoSortKeepsTies(last, init, lt, c);
  }

  /**
   * The sort is stable: the elements the comparator ties with any given `c`
   * come out in the order they went in.
   */
  lemma {:induction false} SortStable<T(!new)>(s: seq<T>, lt: (T, T) -> bool, c: T)
    requires StrictWeakOrder(lt)
    ensures Filter(Sort(s, lt), TiedWith(lt, c)) == Filter(s, TiedWith(lt, c))
  {
    if s != [] {
      var init := s[..|s| - 1];
      assert s == init + [s[|s| - 1]];
      SortStable(init, lt, c);
      StableStep(init, s[|s| - 1], lt, c);
    }
  }
}
