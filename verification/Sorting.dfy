/** The stable sort by a key that Python's `sorted` and `list.sort` are. */
module Sorting {

  predicate Ascending<T>(xs: seq<T>, key: T -> real) {
    forall i, j :: 0 <= i < j < |xs| ==> key(xs[i]) <= key(xs[j])
  }

  /** Stable: an element goes after those of the same key that came before it. */
  function Insert<T>(x: T, xs: seq<T>, key: T -> real): seq<T> {
    if xs == [] || key(xs[|xs| - 1]) <= key(x) then xs + [x]
    else Insert(x, xs[..|xs| - 1], key) + [xs[|xs| - 1]]
  }

  function Sort<T>(xs: seq<T>, key: T -> real): seq<T> {
    if xs == [] then [] else Insert(xs[|xs| - 1], Sort(xs[..|xs| - 1], key), key)
  }

  lemma {:induction false} InsertKeepsAll<T>(x: T, xs: seq<T>, key: T -> real)
    ensures multiset(Insert(x, xs, key)) == multiset(xs) + multiset{x}
  {
    if xs != [] && !(key(xs[|xs| - 1]) <= key(x)) {
      assert xs == xs[..|xs| - 1] + [xs[|xs| - 1]];
      InsertKeepsAll(x, xs[..|xs| - 1], key);
    }
  }

  lemma {:induction false} InsertAscends<T>(x: T, xs: seq<T>, key: T -> real)
    requires Ascending(xs, key)
    ensures Ascending(Insert(x, xs, key), key)
  {
    if xs != [] && !(key(xs[|xs| - 1]) <= key(x)) {
      var init, last := xs[..|xs| - 1], xs[|xs| - 1];
      InsertAscends(x, init, key);
      InsertKeepsAll(x, init, key);
      var r := Insert(x, init, key);
      forall i | 0 <= i < |r| ensures key(r[i]) <= key(last) {
        assert r[i] in multiset(r);
      }
    }
  }

  lemma {:induction false} SortSorts<T>(xs: seq<T>, key: T -> real)
    ensures Ascending(Sort(xs, key), key) && multiset(Sort(xs, key)) == multiset(xs)
  {
    hide Insert;
    if xs != [] {
      var init, last := xs[..|xs| - 1], xs[|xs| - 1];
      assert xs == init + [last];
      SortSorts(init, key);
      InsertKeepsAll(last, Sort(init, key), key);
      InsertAscends(last, Sort(init, key), key);
    }
  }

  /** What is in order already stays as it is. */
  lemma {:induction false} SortedStays<T>(xs: seq<T>, key: T -> real)
    requires Ascending(xs, key)
    ensures Sort(xs, key) == xs
  {
    if xs != [] {
      SortedStays(xs[..|xs| - 1], key);
      assert xs == xs[..|xs| - 1] + [xs[|xs| - 1]];
    }
  }

  // ---- filters ----

  function Where<T>(xs: seq<T>, keep: T -> bool): seq<T> {
    if xs == [] then []
    else Where(xs[..|xs| - 1], keep) + if keep(xs[|xs| - 1]) then [xs[|xs| - 1]] else []
  }

  lemma WhereSnoc<T>(xs: seq<T>, x: T, keep: T -> bool)
    ensures Where(xs + [x], keep) == Where(xs, keep) + if keep(x) then [x] else []
  {
    assert (xs + [x])[..|xs|] == xs;
  }

  lemma {:induction false} WhereConcat<T>(xs: seq<T>, ys: seq<T>, keep: T -> bool)
    ensures Where(xs + ys, keep) == Where(xs, keep) + Where(ys, keep)
  {
    if ys == [] {
      assert xs + ys == xs;
    } else {
      var init, last := ys[..|ys| - 1], ys[|ys| - 1];
      WhereConcat(xs, init, keep);
      assert xs + ys == (xs + init) + [last];
      WhereSnoc(xs + init, last, keep);
    }
  }

  lemma {:induction false} WhereHas<T>(xs: seq<T>, keep: T -> bool, x: T)
    ensures x in Where(xs, keep) <==> x in xs && keep(x)
  {
    if xs != [] {
      var init, last := xs[..|xs| - 1], xs[|xs| - 1];
      assert xs == init + [last];
      WhereHas(init, keep, x);
    }
  }

  /** The largest of what is kept is not above the largest of all. */
  lemma LastKept<T>(xs: seq<T>, keep: T -> bool, key: T -> real, bound: real)
    requires forall i :: 0 <= i < |xs| ==> key(xs[i]) <= bound
    ensures forall i :: 0 <= i < |Where(xs, keep)| ==> key(Where(xs, keep)[i]) <= bound
  {
    var w := Where(xs, keep);
    forall i | 0 <= i < |w| ensures key(w[i]) <= bound {
      WhereHas(xs, keep, w[i]);
    }
  }

  lemma {:induction false} WhereAscends<T>(xs: seq<T>, keep: T -> bool, key: T -> real)
    requires Ascending(xs, key)
    ensures Ascending(Where(xs, keep), key)
  {
    if xs != [] {
      var init, last := xs[..|xs| - 1], xs[|xs| - 1];
      WhereAscends(init, keep, key);
      LastKept(init, keep, key, key(last));
    }
  }

  lemma InsertLast<T>(x: T, xs: seq<T>, key: T -> real)
    requires forall i :: 0 <= i < |xs| ==> key(xs[i]) <= key(x)
    ensures Insert(x, xs, key) == xs + [x]
  {
  }

  lemma InsertBefore<T>(x: T, xs: seq<T>, last: T, key: T -> real)
    requires key(last) > key(x)
    ensures Insert(x, xs + [last], key) == Insert(x, xs, key) + [last]
  {
    assert (xs + [last])[..|xs|] == xs;
  }

  lemma {:induction false} InsertWhere<T>(x: T, xs: seq<T>, key: T -> real, keep: T -> bool)
    requires Ascending(xs, key)
    ensures Where(Insert(x, xs, key), keep) ==
            if keep(x) then Insert(x, Where(xs, keep), key) else Where(xs, keep)
  {
    hide Where, Insert;
    var w := Where(xs, keep);
    if xs == [] || key(xs[|xs| - 1]) <= key(x) {
      InsertLast(x, xs, key);
      LastKept(xs, keep, key, key(x));
      InsertLast(x, w, key);
      WhereSnoc(xs, x, keep);
      assert w + [] == w;
    } else {
      var init, last := xs[..|xs| - 1], xs[|xs| - 1];
      assert xs == init + [last];
      InsertBefore(x, init, last, key);
      InsertWhere(x, init, key, keep);
      WhereSnoc(Insert(x, init, key), last, keep);
      WhereSnoc(init, last, keep);
      InsertBefore(x, Where(init, keep), last, key);
      assert Where(init, keep) + [] == Where(init, keep);
      assert Insert(x, Where(init, keep), key) + [] == Insert(x, Where(init, keep), key);
    }
  }

  /** A stable sort and a filter can change places. */
  lemma {:induction false} SortWhere<T>(xs: seq<T>, key: T -> real, keep: T -> bool)
    ensures Where(Sort(xs, key), keep) == Sort(Where(xs, keep), key)
  {
    hide Insert;
    if xs != [] {
      var init, last := xs[..|xs| - 1], xs[|xs| - 1];
      SortWhere(init, key, keep);
      SortSorts(init, key);
      InsertWhere(last, Sort(init, key), key, keep);
      SortSnoc(Where(init, keep), last, key);
      assert Where(init, keep) + [] == Where(init, keep);
    }
  }

  lemma SortSnoc<T>(xs: seq<T>, x: T, key: T -> real)
    ensures Sort(xs + [x], key) == Insert(x, Sort(xs, key), key)
  {
    assert (xs + [x])[..|xs|] == xs;
  }

  /** Filtering first by what the second filter implies changes nothing. */
  lemma {:induction false} WhereWhere<T>(xs: seq<T>, wide: T -> bool, narrow: T -> bool)
    requires forall i :: 0 <= i < |xs| && narrow(xs[i]) ==> wide(xs[i])
    ensures Where(Where(xs, wide), narrow) == Where(xs, narrow)
  {
    if xs != [] {
      var init, last := xs[..|xs| - 1], xs[|xs| - 1];
      WhereWhere(init, wide, narrow);
      WhereSnoc(Where(init, wide), last, narrow);
      assert Where(init, wide) + [] == Where(init, wide);
      assert Where(init, narrow) + [] == Where(init, narrow);
    }
  }
}
