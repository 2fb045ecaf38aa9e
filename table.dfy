/** Relational building blocks shared by the order-fact transform and the
    analytics views. A table is a sequence of rows; a nullable cell is an
    `Option`. Each function here models one dataframe primitive: filtering a
    group out by key, the distinct keys of a group-by, the null-skipping
    aggregates `sum`, `count`, `mean`, `min`, `max`, and the left join. */
module Table {

  /** A nullable cell: `None` is the null a left join or an empty aggregate yields. */
  datatype Option<+T> = None | Some(value: T)

  /** The value of a numeric cell, with null counting as zero (how `sum` skips nulls). */
  function OrZero(c: Option<real>): real
  {
    match c
    case Some(v) => v
    case None => 0.0
  }

  function OrZeroInt(c: Option<int>): int
  {
    match c
    case Some(v) => v
    case None => 0
  }

  /** No value occurs twice in `ks`. */
  predicate NoDup<K(==)>(ks: seq<K>)
  {
    forall i, j :: 0 <= i < j < |ks| ==> ks[i] != ks[j]
  }

  /** No two rows of `rows` share a key. */
  predicate UniqueKeys<R, K(==)>(rows: seq<R>, key: R -> K)
  {
    forall i, j :: 0 <= i < j < |rows| ==> key(rows[i]) != key(rows[j])
  }

  /** Some row of `rows` has key `k`. */
  predicate HasKey<T, K(==)>(rows: seq<T>, key: T -> K, k: K)
  {
    exists i :: 0 <= i < |rows| && key(rows[i]) == k
  }

  // ---------------------------------------------------------------------
  // Filtering and group-by
  // ---------------------------------------------------------------------

  /** The rows whose key is `k`, in source order: the group of `k`. */
  function Filter<T, K(==)>(rows: seq<T>, key: T -> K, k: K): (r: seq<T>)
    ensures |r| <= |rows|
    ensures forall i :: 0 <= i < |r| ==> r[i] in rows && key(r[i]) == k
    ensures forall i :: 0 <= i < |rows| && key(rows[i]) == k ==> rows[i] in r
    ensures r == [] <==> !HasKey(rows, key, k)
  {
    if rows == [] then []
    else
      var rest := Filter(rows[1..], key, k);
      assert HasKey(rows, key, k) <==> key(rows[0]) == k || HasKey(rows[1..], key, k) by {
        if HasKey(rows[1..], key, k) {
          var i :| 0 <= i < |rows[1..]| && key(rows[1..][i]) == k;
          assert key(rows[i + 1]) == k;
        }
        if HasKey(rows, key, k) && key(rows[0]) != k {
          var i :| 0 <= i < |rows| && key(rows[i]) == k;
          assert key(rows[1..][i - 1]) == k;
        }
      }
      if key(rows[0]) == k then [rows[0]] + rest else rest
  }

  lemma {:induction false} FilterAppend<T, K>(a: seq<T>, b: seq<T>, key: T -> K, k: K)
    ensures Filter(a + b, key, k) == Filter(a, key, k) + Filter(b, key, k)
  {
    if a == [] {
      assert a + b == b;
    } else {
      assert (a + b)[1..] == a[1..] + b;
      FilterAppend(a[1..], b, key, k);
    }
  }

  /** A group holds each row of key `k` as many times as the table does, and no other row. */
  lemma {:induction false} FilterMultiset<T, K>(rows: seq<T>, key: T -> K, k: K)
    ensures forall x :: multiset(Filter(rows, key, k))[x] == if key(x) == k then multiset(rows)[x] else 0
  {
    if rows != [] {
      FilterMultiset(rows[1..], key, k);
      assert rows == [rows[0]] + rows[1..];
      assert multiset(rows) == multiset{rows[0]} + multiset(rows[1..]);
    }
  }

  /** The first row of a key's group is the first row of the table with that key. */
  lemma FilterFirst<T, K>(rows: seq<T>, key: T -> K, j: nat)
    requires j < |rows|
    requires forall i :: 0 <= i < j ==> key(rows[i]) != key(rows[j])
    ensures Filter(rows, key, key(rows[j])) != [] && Filter(rows, key, key(rows[j]))[0] == rows[j]
  {
    var k := key(rows[j]);
    assert rows == rows[..j] + rows[j..];
    FilterAppend(rows[..j], rows[j..], key, k);
    assert !HasKey(rows[..j], key, k);
    assert rows[j..][0] == rows[j];
  }

  /** The values of `s` with later repetitions dropped, in first-appearance order. */
  function Distinct<K(==)>(s: seq<K>): (r: seq<K>)
    ensures NoDup(r)
    ensures forall i :: 0 <= i < |r| ==> r[i] in s
    ensures forall i :: 0 <= i < |s| ==> s[i] in r
  {
    if s == [] then []
    else
      var p := Distinct(s[..|s| - 1]);
      assert s == s[..|s| - 1] + [s[|s| - 1]];
      if s[|s| - 1] in p then p else p + [s[|s| - 1]]
  }

  /** The key column of a table. */
  function Column<T, K>(rows: seq<T>, key: T -> K): seq<K>
  {
    seq(|rows|, i requires 0 <= i < |rows| => key(rows[i]))
  }

  /** The keys of `group_by(key)`: every key that occurs, each exactly once.
      The group of a key `k` is `Filter(rows, key, k)`. */
  function GroupKeys<T, K(==)>(rows: seq<T>, key: T -> K): (ks: seq<K>)
    ensures NoDup(ks)
    ensures forall i :: 0 <= i < |ks| ==> HasKey(rows, key, ks[i])
    ensures forall i :: 0 <= i < |rows| ==> key(rows[i]) in ks
    ensures |ks| <= |rows|
  {
    var c := Column(rows, key);
    var ks := Distinct(c);
    assert forall i :: 0 <= i < |ks| ==> HasKey(rows, key, ks[i]) by {
      forall i | 0 <= i < |ks| ensures HasKey(rows, key, ks[i]) {
        var j :| 0 <= j < |c| && c[j] == ks[i];
        assert key(rows[j]) == ks[i];
      }
    }
    assert forall i :: 0 <= i < |rows| ==> key(rows[i]) in ks by {
      forall i | 0 <= i < |rows| ensures key(rows[i]) in ks {
        assert c[i] == key(rows[i]);
      }
    }
    NoDupBounded(ks, c);
    ks
  }

  /** A duplicate-free sequence drawn from `c` is no longer than `c`. */
  lemma NoDupBounded<K>(ks: seq<K>, c: seq<K>)
    requires NoDup(ks)
    requires forall i :: 0 <= i < |ks| ==> ks[i] in c
    ensures |ks| <= |c|
  {
    var sk := set k | k in ks;
    var sc := set k | k in c;
    assert sk <= sc;
    NoDupCard(ks);
    SeqSetCard(c);
    assert sc == sk + (sc - sk);
    assert |sk| <= |sc|;
  }

  lemma {:induction false} NoDupCard<K>(ks: seq<K>)
    requires NoDup(ks)
    ensures |set k | k in ks| == |ks|
  {
    if ks != [] {
      var last := ks[|ks| - 1];
      var init := ks[..|ks| - 1];
      assert NoDup(init);
      NoDupCard(init);
      assert last !in init;
      assert (set k | k in ks) == (set k | k in init) + {last};
    }
  }

  lemma {:induction false} SeqSetCard<K>(c: seq<K>)
    ensures |set k | k in c| <= |c|
  {
    if c != [] {
      var init := c[..|c| - 1];
      SeqSetCard(init);
      assert (set k | k in c) == (set k | k in init) + {c[|c| - 1]};
    }
  }

  // ---------------------------------------------------------------------
  // Null-skipping aggregates
  // ---------------------------------------------------------------------

  /** `sum` of a real column: nulls are skipped, an empty or all-null column gives 0. */
  function SumOf<T>(rows: seq<T>, f: T -> Option<real>): real
  {
    if rows == [] then 0.0 else OrZero(f(rows[0])) + SumOf(rows[1..], f)
  }

  /** `sum` of an integer column, nulls skipped. */
  function SumIntOf<T>(rows: seq<T>, f: T -> Option<int>): int
  {
    if rows == [] then 0 else OrZeroInt(f(rows[0])) + SumIntOf(rows[1..], f)
  }
  /** Nulls add nothing: an all-null (or empty) column sums to 0. */
  lemma {:induction false} SumOfAllNull<T>(rows: seq<T>, f: T -> Option<real>)
    requires forall i :: 0 <= i < |rows| ==> f(rows[i]).None?
    ensures SumOf(rows, f) == 0.0
  {
    if rows != [] {
      assert forall i :: 0 <= i < |rows[1..]| ==> rows[1..][i] == rows[i + 1];
      SumOfAllNull(rows[1..], f);
    }
  }

  /** The integer `sum` of an all-null (or empty) column is 0. */
  lemma {:induction false} SumIntOfAllNull<T>(rows: seq<T>, f: T -> Option<int>)
    requires forall i :: 0 <= i < |rows| ==> f(rows[i]).None?
    ensures SumIntOf(rows, f) == 0
  {
    if rows != [] {
      assert forall i :: 0 <= i < |rows[1..]| ==> rows[1..][i] == rows[i + 1];
      SumIntOfAllNull(rows[1..], f);
    }
  }


  /** `count` of a column: the number of non-null cells. */
  function CountOf<T>(rows: seq<T>, f: T -> Option<real>): (n: nat)
    ensures n <= |rows|
    ensures n == 0 <==> forall i :: 0 <= i < |rows| ==> f(rows[i]).None?
  {
    if rows == [] then 0
    else
      var n := CountOf(rows[1..], f);
      assert forall i :: 1 <= i < |rows| ==> rows[i] == rows[1..][i - 1];
      (if f(rows[0]).Some? then 1 else 0) + n
  }

  /** The positions of the non-null cells of a column. */
  function PresentCells<T>(rows: seq<T>, f: T -> Option<real>): set<int>
  {
    set i | 0 <= i < |rows| && f(rows[i]).Some?
  }

  lemma {:induction false} CountOfAppend<T>(a: seq<T>, b: seq<T>, f: T -> Option<real>)
    ensures CountOf(a + b, f) == CountOf(a, f) + CountOf(b, f)
  {
    if a == [] {
      assert a + b == b;
    } else {
      assert (a + b)[1..] == a[1..] + b;
      CountOfAppend(a[1..], b, f);
    }
  }

  /** `count` is the number of non-null cells. */
  lemma {:induction false} CountIsPresentCells<T>(rows: seq<T>, f: T -> Option<real>)
    ensures CountOf(rows, f) == |PresentCells(rows, f)|
  {
    if rows == [] {
      assert PresentCells(rows, f) == {};
    } else {
      var init, last := rows[..|rows| - 1], rows[|rows| - 1];
      assert rows == init + [last];
      CountOfAppend(init, [last], f);
      assert [last][1..] == [];
      CountIsPresentCells(init, f);
      var p := PresentCells(init, f);
      assert |init| !in p;
      if f(last).Some? {
        assert PresentCells(rows, f) == p + {|init|};
      } else {
        assert PresentCells(rows, f) == p;
      }
    }
  }

  /** `mean` of a real column: sum over count of the non-null cells, null when there are none. */
  function MeanOf<T>(rows: seq<T>, f: T -> Option<real>): (m: Option<real>)
    ensures m.None? <==> forall i :: 0 <= i < |rows| ==> f(rows[i]).None?
    ensures m.Some? ==> |PresentCells(rows, f)| > 0 && m.value == SumOf(rows, f) / |PresentCells(rows, f)| as real
  {
    var n := CountOf(rows, f);
    CountIsPresentCells(rows, f);
    if n == 0 then None else Some(SumOf(rows, f) / n as real)
  }

  /** With no null cell, `count` is the number of rows. */
  lemma {:induction false} CountAllPresent<T>(rows: seq<T>, f: T -> Option<real>)
    requires forall i :: 0 <= i < |rows| ==> f(rows[i]).Some?
    ensures CountOf(rows, f) == |rows|
  {
    if rows != [] {
      assert forall i :: 0 <= i < |rows[1..]| ==> rows[1..][i] == rows[i + 1];
      CountAllPresent(rows[1..], f);
    }
  }

  /** With no null cell, `mean` is the exact sum divided by the number of rows. */
  lemma MeanAllPresent<T>(rows: seq<T>, f: T -> Option<real>)
    requires rows != []
    requires forall i :: 0 <= i < |rows| ==> f(rows[i]).Some?
    ensures MeanOf(rows, f) == Some(SumOf(rows, f) / |rows| as real)
  {
    CountAllPresent(rows, f);
  }

  /** The value of `mean`: the sum over the number of non-null cells, which is
      the number of rows when no cell is null. */
  lemma MeanCases<T>(rows: seq<T>, f: T -> Option<real>)
    ensures (rows != [] && forall i :: 0 <= i < |rows| ==> f(rows[i]).Some?) ==>
              MeanOf(rows, f) == Some(SumOf(rows, f) / |rows| as real)
    ensures (exists i :: 0 <= i < |rows| && f(rows[i]).Some?) ==>
              |PresentCells(rows, f)| > 0 &&
              MeanOf(rows, f) == Some(SumOf(rows, f) / |PresentCells(rows, f)| as real)
  {
    if rows != [] && forall i :: 0 <= i < |rows| ==> f(rows[i]).Some? {
      MeanAllPresent(rows, f);
    }
    if exists i :: 0 <= i < |rows| && f(rows[i]).Some? {
      var i :| 0 <= i < |rows| && f(rows[i]).Some?;
      assert !f(rows[i]).None?;
      assert MeanOf(rows, f).Some?;
    }
  }

  /** Two columns that agree cell by cell have the same sum. */
  lemma {:induction false} SumOfPointwise<A, B>(xs: seq<A>, f: A -> Option<real>, ys: seq<B>, g: B -> Option<real>)
    requires |xs| == |ys|
    requires forall i :: 0 <= i < |xs| ==> f(xs[i]) == g(ys[i])
    ensures SumOf(xs, f) == SumOf(ys, g)
  {
    if xs != [] {
      assert forall i :: 0 <= i < |xs[1..]| ==> xs[1..][i] == xs[i + 1] && ys[1..][i] == ys[i + 1];
      SumOfPointwise(xs[1..], f, ys[1..], g);
    }
  }

  lemma {:induction false} SumIntOfPointwise<A, B>(xs: seq<A>, f: A -> Option<int>, ys: seq<B>, g: B -> Option<int>)
    requires |xs| == |ys|
    requires forall i :: 0 <= i < |xs| ==> f(xs[i]) == g(ys[i])
    ensures SumIntOf(xs, f) == SumIntOf(ys, g)
  {
    if xs != [] {
      assert forall i :: 0 <= i < |xs[1..]| ==> xs[1..][i] == xs[i + 1] && ys[1..][i] == ys[i + 1];
      SumIntOfPointwise(xs[1..], f, ys[1..], g);
    }
  }

  lemma {:induction false} CountOfPointwise<A, B>(xs: seq<A>, f: A -> Option<real>, ys: seq<B>, g: B -> Option<real>)
    requires |xs| == |ys|
    requires forall i :: 0 <= i < |xs| ==> f(xs[i]) == g(ys[i])
    ensures CountOf(xs, f) == CountOf(ys, g)
  {
    if xs != [] {
      assert forall i :: 0 <= i < |xs[1..]| ==> xs[1..][i] == xs[i + 1] && ys[1..][i] == ys[i + 1];
      CountOfPointwise(xs[1..], f, ys[1..], g);
    }
  }

  /** `max` of a non-null integer column over a non-empty group. */
  function MaxOf<T>(rows: seq<T>, f: T -> int): (m: int)
    requires rows != []
    ensures exists i :: 0 <= i < |rows| && f(rows[i]) == m
    ensures forall i :: 0 <= i < |rows| ==> f(rows[i]) <= m
  {
    if |rows| == 1 then f(rows[0])
    else
      var m := MaxOf(rows[1..], f);
      assert forall i :: 1 <= i < |rows| ==> rows[i] == rows[1..][i - 1];
      if f(rows[0]) >= m then f(rows[0]) else m
  }

  /** `min` of a non-null integer column over a non-empty group. */
  function MinOf<T>(rows: seq<T>, f: T -> int): (m: int)
    requires rows != []
    ensures exists i :: 0 <= i < |rows| && f(rows[i]) == m
    ensures forall i :: 0 <= i < |rows| ==> m <= f(rows[i])
  {
    if |rows| == 1 then f(rows[0])
    else
      var m := MinOf(rows[1..], f);
      assert forall i :: 1 <= i < |rows| ==> rows[i] == rows[1..][i - 1];
      if f(rows[0]) <= m then f(rows[0]) else m
  }

  /** The position of a largest value: what taking row 0 after a descending
      sort selects. Among equal maxima the first is chosen. */
  function ArgMax(vals: seq<real>): (i: nat)
    requires vals != []
    ensures i < |vals|
    ensures forall j :: 0 <= j < |vals| ==> vals[j] <= vals[i]
  {
    if |vals| == 1 then 0
    else
      var k := ArgMax(vals[1..]) + 1;
      assert forall j :: 1 <= j < |vals| ==> vals[j] == vals[1..][j - 1];
      if vals[0] >= vals[k] then 0 else k
  }

  // ---------------------------------------------------------------------
  // Sums over a group-by
  // ---------------------------------------------------------------------

  /** The group sums of column `f`, added up over the keys `ks`. */
  function SumGroups<T, K(==)>(rows: seq<T>, key: T -> K, f: T -> Option<real>, ks: seq<K>): real
  {
    if ks == [] then 0.0 else SumOf(Filter(rows, key, ks[0]), f) + SumGroups(rows, key, f, ks[1..])
  }

  lemma {:induction false} SumGroupsCons<T, K>(x: T, rest: seq<T>, key: T -> K, f: T -> Option<real>, ks: seq<K>)
    requires NoDup(ks)
    ensures SumGroups([x] + rest, key, f, ks)
         == SumGroups(rest, key, f, ks) + (if key(x) in ks then OrZero(f(x)) else 0.0)
  {
    if ks != [] {
      assert ([x] + rest)[1..] == rest;
      assert NoDup(ks[1..]);
      SumGroupsCons(x, rest, key, f, ks[1..]);
      assert key(x) in ks <==> key(x) == ks[0] || key(x) in ks[1..];
      assert key(x) == ks[0] ==> key(x) !in ks[1..];
    }
  }

  /** Group sums add up to the column total, when the keys are the distinct keys. */
  lemma {:induction false} GroupSumsAddUp<T, K>(rows: seq<T>, key: T -> K, f: T -> Option<real>, ks: seq<K>)
    requires NoDup(ks)
    requires forall i :: 0 <= i < |rows| ==> key(rows[i]) in ks
    ensures SumGroups(rows, key, f, ks) == SumOf(rows, f)
  {
    if rows == [] {
      EmptyGroups(key, f, ks);
    } else {
      assert rows == [rows[0]] + rows[1..];
      assert forall i :: 0 <= i < |rows[1..]| ==> rows[1..][i] == rows[i + 1];
      GroupSumsAddUp(rows[1..], key, f, ks);
      SumGroupsCons(rows[0], rows[1..], key, f, ks);
    }
  }

  lemma {:induction false} EmptyGroups<T, K>(key: T -> K, f: T -> Option<real>, ks: seq<K>)
    ensures SumGroups([], key, f, ks) == 0.0
  {
    if ks != [] {
      EmptyGroups(key, f, ks[1..]);
    }
  }

  /** A view with one row per key, carrying the group sum of `f`, adds up like the groups. */
  lemma {:induction false} ViewSumIsSumGroups<T, K, V>(view: seq<V>, total: V -> Option<real>,
                                                           rows: seq<T>, key: T -> K, f: T -> Option<real>, ks: seq<K>)
    requires |view| == |ks|
    requires forall i :: 0 <= i < |ks| ==> total(view[i]) == Some(SumOf(Filter(rows, key, ks[i]), f))
    ensures SumOf(view, total) == SumGroups(rows, key, f, ks)
  {
    if ks != [] {
      assert forall i :: 0 <= i < |ks[1..]| ==> view[1..][i] == view[i + 1] && ks[1..][i] == ks[i + 1];
      ViewSumIsSumGroups(view[1..], total, rows, key, f, ks[1..]);
    }
  }

  // ---------------------------------------------------------------------
  // Left join
  // ---------------------------------------------------------------------

  /** The first right row whose key is `k`; null for a null key or no match. */
  function Lookup<R, K(==)>(right: seq<R>, rk: R -> K, k: Option<K>): (r: Option<R>)
    ensures r.Some? ==> r.value in right && k == Some(rk(r.value))
    ensures r.None? <==> k.None? || !HasKey(right, rk, k.value)
  {
    if k.None? then None
    else
      var m := Filter(right, rk, k.value);
      if m == [] then None else Some(m[0])
  }

  /** `left.join(right, how='left')`: every left row is combined with each
      right row of equal key in right order, or once with null when its key
      is null or matches nothing. Left order is kept. */
  function LeftJoin<L, R, K(==), O>(left: seq<L>, right: seq<R>, lk: L -> Option<K>, rk: R -> K,
                                    combine: (L, Option<R>) -> O): (r: seq<O>)
    ensures |r| >= |left|
  {
    if left == [] then []
    else
      var ms := if lk(left[0]).None? then [] else Filter(right, rk, lk(left[0]).value);
      var here := if ms == [] then [combine(left[0], None)]
                  else seq(|ms|, j requires 0 <= j < |ms| => combine(left[0], Some(ms[j])));
      here + LeftJoin(left[1..], right, lk, rk, combine)
  }

  /** Whatever the right table holds, every left row reappears in the join,
      combined with null or with one of its matches. */
  lemma {:induction false} LeftJoinKeepsRows<L, R, K, O>(left: seq<L>, right: seq<R>, lk: L -> Option<K>, rk: R -> K,
                                                          combine: (L, Option<R>) -> O, i: nat)
    requires i < |left|
    ensures exists m: Option<R> ::
              && (m.None? || (m.value in right && lk(left[i]) == Some(rk(m.value))))
              && combine(left[i], m) in LeftJoin(left, right, lk, rk, combine)
  {
    var ms := if lk(left[0]).None? then [] else Filter(right, rk, lk(left[0]).value);
    var here := if ms == [] then [combine(left[0], None)]
                else seq(|ms|, j requires 0 <= j < |ms| => combine(left[0], Some(ms[j])));
    var rest := LeftJoin(left[1..], right, lk, rk, combine);
    assert LeftJoin(left, right, lk, rk, combine) == here + rest;
    if i == 0 {
      var m := if ms == [] then None else Some(ms[0]);
      assert m.Some? ==> ms[0] in ms;
      assert here[0] == combine(left[0], m);
    } else {
      LeftJoinKeepsRows(left[1..], right, lk, rk, combine, i - 1);
      assert left[1..][i - 1] == left[i];
      var m: Option<R> :| (m.None? || (m.value in right && lk(left[i]) == Some(rk(m.value)))) && combine(left[i], m) in rest;
      assert combine(left[i], m) in here + rest;
    }
  }

  /** Against a right table with unique keys, a group has at most one row, and it is the lookup. */
  lemma {:induction false} FilterUnique<R, K>(right: seq<R>, rk: R -> K, k: K)
    requires UniqueKeys(right, rk)
    ensures Filter(right, rk, k) == [] || Filter(right, rk, k) == [Lookup(right, rk, Some(k)).value]
  {
    if right != [] {
      assert UniqueKeys(right[1..], rk) by {
        forall i, j | 0 <= i < j < |right[1..]| ensures rk(right[1..][i]) != rk(right[1..][j]) {
          assert right[1..][i] == right[i + 1] && right[1..][j] == right[j + 1];
        }
      }
      FilterUnique(right[1..], rk, k);
    }
  }

  /** A left join against a right table with unique keys keeps every left row
      exactly once, in order, combined with its lookup (null when absent). */
  lemma {:induction false} LeftJoinUnique<L, R, K, O>(left: seq<L>, right: seq<R>, lk: L -> Option<K>, rk: R -> K,
                                                          combine: (L, Option<R>) -> O)
    requires UniqueKeys(right, rk)
    ensures |LeftJoin(left, right, lk, rk, combine)| == |left|
    ensures forall i :: 0 <= i < |left| ==>
              LeftJoin(left, right, lk, rk, combine)[i] == combine(left[i], Lookup(right, rk, lk(left[i])))
  {
    if left != [] {
      LeftJoinUnique(left[1..], right, lk, rk, combine);
      LeftJoinHead(left, right, lk, rk, combine);
      var r := LeftJoin(left, right, lk, rk, combine);
      var rest := LeftJoin(left[1..], right, lk, rk, combine);
      forall i | 1 <= i < |left|
        ensures r[i] == combine(left[i], Lookup(right, rk, lk(left[i])))
      {
        assert left[1..][i - 1] == left[i];
      }
    }
  }

  /** Against unique right keys, the first left row contributes exactly one row. */
  lemma LeftJoinHead<L, R, K, O>(left: seq<L>, right: seq<R>, lk: L -> Option<K>, rk: R -> K,
                                 combine: (L, Option<R>) -> O)
    requires UniqueKeys(right, rk) && left != []
    ensures LeftJoin(left, right, lk, rk, combine)
         == [combine(left[0], Lookup(right, rk, lk(left[0])))] + LeftJoin(left[1..], right, lk, rk, combine)
  {
    var ms := if lk(left[0]).None? then [] else Filter(right, rk, lk(left[0]).value);
    var here := if ms == [] then [combine(left[0], None)]
                else seq(|ms|, j requires 0 <= j < |ms| => combine(left[0], Some(ms[j])));
    assert LeftJoin(left, right, lk, rk, combine) == here + LeftJoin(left[1..], right, lk, rk, combine);
    var found := Lookup(right, rk, lk(left[0]));
    if lk(left[0]).Some? {
      FilterUnique(right, rk, lk(left[0]).value);
      if ms != [] {
        assert ms == [found.value];
        assert here == [combine(left[0], found)];
      }
    }
  }

  /** In a table with unique keys, looking up a row's own key finds that row. */
  lemma LookupAt<R, K>(right: seq<R>, rk: R -> K, i: nat)
    requires UniqueKeys(right, rk)
    requires i < |right|
    ensures Lookup(right, rk, Some(rk(right[i]))) == Some(right[i])
  {
    var k := rk(right[i]);
    assert HasKey(right, rk, k);
    var x := Lookup(right, rk, Some(k)).value;
    var j :| 0 <= j < |right| && right[j] == x;
  }

  /** A table built with one row per distinct key has unique keys, and looking
      a key up finds its row, or null when the key is not among them. */
  lemma AggLookup<R, K>(r: seq<R>, rk: R -> K, ks: seq<K>)
    requires |r| == |ks| && NoDup(ks)
    requires forall i :: 0 <= i < |r| ==> rk(r[i]) == ks[i]
    ensures UniqueKeys(r, rk)
    ensures forall i :: 0 <= i < |r| ==> Lookup(r, rk, Some(ks[i])) == Some(r[i])
    ensures forall k :: k !in ks ==> Lookup(r, rk, Some(k)) == None
  {
    forall i | 0 <= i < |r| ensures Lookup(r, rk, Some(ks[i])) == Some(r[i]) {
      LookupAt(r, rk, i);
    }
  }

  /** Looking a key up in a table built with one row per group key: null when
      the key has no group, otherwise the row at the key's position. */
  lemma GroupedLookup<T, K, V>(rows: seq<T>, key: T -> K, r: seq<V>, rk: V -> K, k: K)
    requires |r| == |GroupKeys(rows, key)|
    requires forall i :: 0 <= i < |r| ==> rk(r[i]) == GroupKeys(rows, key)[i]
    ensures UniqueKeys(r, rk)
    ensures Filter(rows, key, k) == [] ==> Lookup(r, rk, Some(k)) == None
    ensures Filter(rows, key, k) != [] ==>
              exists i :: 0 <= i < |r| && GroupKeys(rows, key)[i] == k && Lookup(r, rk, Some(k)) == Some(r[i])
  {
    var ks := GroupKeys(rows, key);
    AggLookup(r, rk, ks);
    if Filter(rows, key, k) != [] {
      var j :| 0 <= j < |rows| && key(rows[j]) == k;
      assert k in ks;
    }
  }

  /** A left join keeps every left key: a key occurs in the result exactly when
      it occurs on the left, when the combined row carries the left row's key. */
  lemma {:induction false} LeftJoinKeepsKeys<L, R, K, O, J>(left: seq<L>, right: seq<R>, lk: L -> Option<K>, rk: R -> K,
                                                           combine: (L, Option<R>) -> O, kl: L -> J, ko: O -> J, k: J)
    requires forall l, m :: ko(combine(l, m)) == kl(l)
    ensures HasKey(LeftJoin(left, right, lk, rk, combine), ko, k) <==> HasKey(left, kl, k)
  {
    if left != [] {
      var ms := if lk(left[0]).None? then [] else Filter(right, rk, lk(left[0]).value);
      var here := if ms == [] then [combine(left[0], None)]
                  else seq(|ms|, j requires 0 <= j < |ms| => combine(left[0], Some(ms[j])));
      var rest := LeftJoin(left[1..], right, lk, rk, combine);
      assert LeftJoin(left, right, lk, rk, combine) == here + rest;
      LeftJoinKeepsKeys(left[1..], right, lk, rk, combine, kl, ko, k);
      assert forall j :: 0 <= j < |here| ==> ko(here[j]) == kl(left[0]);
      assert ko(here[0]) == kl(left[0]);
      HasKeyAppend(here, rest, ko, k);
      HasKeyCons(left, kl, k);
    }
  }

  lemma HasKeyAppend<T, K>(a: seq<T>, b: seq<T>, key: T -> K, k: K)
    ensures HasKey(a + b, key, k) <==> HasKey(a, key, k) || HasKey(b, key, k)
  {
    if HasKey(a + b, key, k) {
      var i :| 0 <= i < |a + b| && key((a + b)[i]) == k;
      if i >= |a| {
        assert key(b[i - |a|]) == k;
      }
    }
    if HasKey(a, key, k) {
      var i :| 0 <= i < |a| && key(a[i]) == k;
      assert key((a + b)[i]) == k;
    }
    if HasKey(b, key, k) {
      var i :| 0 <= i < |b| && key(b[i]) == k;
      assert key((a + b)[i + |a|]) == k;
    }
  }

  lemma HasKeyCons<T, K>(rows: seq<T>, key: T -> K, k: K)
    requires rows != []
    ensures HasKey(rows, key, k) <==> key(rows[0]) == k || HasKey(rows[1..], key, k)
  {
    if HasKey(rows[1..], key, k) {
      var i :| 0 <= i < |rows[1..]| && key(rows[1..][i]) == k;
      assert key(rows[i + 1]) == k;
    }
    if HasKey(rows, key, k) && key(rows[0]) != k {
      var i :| 0 <= i < |rows| && key(rows[i]) == k;
      assert key(rows[1..][i - 1]) == k;
    }
  }

  /** Bounds on every cell bound the sum. */
  lemma {:induction false} SumOfBounds<T>(rows: seq<T>, f: T -> Option<real>, lo: real, hi: real)
    requires forall i :: 0 <= i < |rows| ==> f(rows[i]).Some? && lo <= f(rows[i]).value <= hi
    ensures lo * |rows| as real <= SumOf(rows, f) <= hi * |rows| as real
  {
    if rows != [] {
      assert forall i :: 0 <= i < |rows[1..]| ==> rows[1..][i] == rows[i + 1];
      SumOfBounds(rows[1..], f, lo, hi);
      var n := |rows[1..]| as real;
      assert |rows| as real == n + 1.0;
      assert lo <= f(rows[0]).value <= hi;
      assert SumOf(rows, f) == f(rows[0]).value + SumOf(rows[1..], f);
      assert lo * (n + 1.0) == lo * n + lo && hi * (n + 1.0) == hi * n + hi;
    }
  }


  // ---------------------------------------------------------------------
  // Views built from a group-by
  // ---------------------------------------------------------------------

  /** A view holding one row per group key, in key order, has unique keys;
      its keys are exactly the keys occurring in the grouped table. */
  lemma GroupViewKeys<T, K, V>(rows: seq<T>, key: T -> K, view: seq<V>, vk: V -> K)
    requires |view| == |GroupKeys(rows, key)|
    requires forall i :: 0 <= i < |view| ==> vk(view[i]) == GroupKeys(rows, key)[i]
    ensures UniqueKeys(view, vk)
    ensures forall i :: 0 <= i < |view| ==> HasKey(rows, key, vk(view[i]))
    ensures forall j :: 0 <= j < |rows| ==> HasKey(view, vk, key(rows[j]))
  {
    var ks := GroupKeys(rows, key);
    forall j | 0 <= j < |rows| ensures HasKey(view, vk, key(rows[j])) {
      var p :| 0 <= p < |ks| && ks[p] == key(rows[j]);
      assert vk(view[p]) == key(rows[j]);
    }
  }

  /** Such a view has a row for key `k` exactly when some grouped row has key `k`. */
  lemma GroupViewHasKey<T, K, V>(rows: seq<T>, key: T -> K, view: seq<V>, vk: V -> K, k: K)
    requires |view| == |GroupKeys(rows, key)|
    requires forall i :: 0 <= i < |view| ==> vk(view[i]) == GroupKeys(rows, key)[i]
    ensures HasKey(view, vk, k) <==> HasKey(rows, key, k)
  {
    GroupViewKeys(rows, key, view, vk);
    if HasKey(view, vk, k) {
      var i :| 0 <= i < |view| && vk(view[i]) == k;
      assert HasKey(rows, key, vk(view[i]));
    }
    if HasKey(rows, key, k) {
      var j :| 0 <= j < |rows| && key(rows[j]) == k;
      assert HasKey(view, vk, key(rows[j]));
    }
  }

  /** The row-wise image of a table (`with_columns` over every row). */
  function MapRows<T, U>(rows: seq<T>, g: T -> U): seq<U>
  {
    seq(|rows|, i requires 0 <= i < |rows| => g(rows[i]))
  }

  /** Rewriting rows without touching their key keeps the set of keys. */
  lemma MapRowsKeepsKeys<T, U, K>(rows: seq<T>, g: T -> U, key: T -> K, key2: U -> K, k: K)
    requires forall x :: key2(g(x)) == key(x)
    ensures HasKey(MapRows(rows, g), key2, k) <==> HasKey(rows, key, k)
  {
    var r := MapRows(rows, g);
    if HasKey(rows, key, k) {
      var i :| 0 <= i < |rows| && key(rows[i]) == k;
      assert key2(r[i]) == k;
    }
  }

  /** Rewriting rows without touching their key commutes with taking a group. */
  lemma {:induction false} FilterMap<T, U, K>(rows: seq<T>, g: T -> U, key: T -> K, key2: U -> K, k: K)
    requires forall x :: key2(g(x)) == key(x)
    ensures Filter(MapRows(rows, g), key2, k) == MapRows(Filter(rows, key, k), g)
  {
    if rows != [] {
      var m := MapRows(rows, g);
      assert m[1..] == MapRows(rows[1..], g);
      FilterMap(rows[1..], g, key, key2, k);
      var rest := Filter(rows[1..], key, k);
      if key(rows[0]) == k {
        MapRowsCons(rows[0], rest, g);
      }
    }
  }

  lemma MapRowsCons<T, U>(x: T, s: seq<T>, g: T -> U)
    ensures MapRows([x] + s, g) == [g(x)] + MapRows(s, g)
  {
  }

  /** Rewriting rows without touching their key leaves the group keys as they are. */
  lemma GroupKeysMap<T, U, K>(rows: seq<T>, g: T -> U, key: T -> K, key2: U -> K)
    requires forall x :: key2(g(x)) == key(x)
    ensures GroupKeys(MapRows(rows, g), key2) == GroupKeys(rows, key)
  {
    assert Column(MapRows(rows, g), key2) == Column(rows, key);
  }

  /** The key of the group with the largest `measure`: the first row of the
      group-by sorted on that measure, descending. Ties go to the first key. */
  function TopGroup<T, K(==)>(rows: seq<T>, key: T -> K, measure: seq<T> -> real): (top: K)
    requires rows != []
    ensures HasKey(rows, key, top)
  {
    var ks := GroupKeys(rows, key);
    assert key(rows[0]) in ks;
    ks[ArgMax(GroupMeasures(rows, key, measure, ks))]
  }

  function GroupMeasures<T, K(==)>(rows: seq<T>, key: T -> K, measure: seq<T> -> real, ks: seq<K>): seq<real>
  {
    seq(|ks|, i requires 0 <= i < |ks| => measure(Filter(rows, key, ks[i])))
  }

  /** The top group exists in the table and no group of the table measures more. */
  lemma TopGroupIsMax<T, K>(rows: seq<T>, key: T -> K, measure: seq<T> -> real)
    requires rows != []
    ensures HasKey(rows, key, TopGroup(rows, key, measure))
    ensures forall j :: 0 <= j < |rows| ==>
              measure(Filter(rows, key, key(rows[j]))) <= measure(Filter(rows, key, TopGroup(rows, key, measure)))
  {
    var ks := GroupKeys(rows, key);
    var vals := GroupMeasures(rows, key, measure, ks);
    assert key(rows[0]) in ks;
    var top := ArgMax(vals);
    assert TopGroup(rows, key, measure) == ks[top];
    assert HasKey(rows, key, ks[top]);
    assert vals[top] == measure(Filter(rows, key, ks[top]));
    forall j | 0 <= j < |rows|
      ensures measure(Filter(rows, key, key(rows[j]))) <= vals[top]
    {
      GroupMeasureBelowMax(rows, key, measure, ks, key(rows[j]));
    }
  }

  lemma GroupMeasureBelowMax<T, K>(rows: seq<T>, key: T -> K, measure: seq<T> -> real, ks: seq<K>, k: K)
    requires k in ks
    ensures var vals := GroupMeasures(rows, key, measure, ks);
            measure(Filter(rows, key, k)) <= vals[ArgMax(vals)]
  {
    var vals := GroupMeasures(rows, key, measure, ks);
    var p :| 0 <= p < |ks| && ks[p] == k;
    assert vals[p] == measure(Filter(rows, key, k));
  }

  /** `view` holds one row per group, in group order, with the group's key
      and measure. */
  predicate GroupView<T, K(==), V>(rows: seq<T>, key: T -> K, measure: seq<T> -> real, view: seq<V>, vk: V -> K, vm: V -> real)
  {
    && |view| == |GroupKeys(rows, key)|
    && forall i :: 0 <= i < |view| ==>
         vk(view[i]) == GroupKeys(rows, key)[i] && vm(view[i]) == measure(Filter(rows, key, GroupKeys(rows, key)[i]))
  }

  /** In a view holding each group's measure, the top group's row has the
      largest measure. */
  lemma TopGroupInView<T, K, V>(rows: seq<T>, key: T -> K, measure: seq<T> -> real, view: seq<V>, vk: V -> K, vm: V -> real)
    requires rows != []
    requires GroupView(rows, key, measure, view, vk, vm)
    ensures var top := TopGroup(rows, key, measure);
            && (exists i :: 0 <= i < |view| && vk(view[i]) == top && vm(view[i]) == measure(Filter(rows, key, top)))
            && (forall i :: 0 <= i < |view| ==> vm(view[i]) <= measure(Filter(rows, key, top)))
  {
    var ks := GroupKeys(rows, key);
    var top := TopGroup(rows, key, measure);
    TopGroupIsMax(rows, key, measure);
    var j0 :| 0 <= j0 < |rows| && key(rows[j0]) == top;
    var p :| 0 <= p < |ks| && ks[p] == top;
    assert vk(view[p]) == top;
    forall i | 0 <= i < |view| ensures vm(view[i]) <= measure(Filter(rows, key, top)) {
      assert HasKey(rows, key, ks[i]);
      var j :| 0 <= j < |rows| && key(rows[j]) == ks[i];
    }
  }

  // ---------------------------------------------------------------------
  // Sorting on an integer column, largest first
  // ---------------------------------------------------------------------

  /** Adjacent rows are in non-increasing order of `rank`. */
  predicate SortedDesc<T>(rows: seq<T>, rank: T -> int)
  {
    forall i :: 0 <= i < |rows| - 1 ==> rank(rows[i]) >= rank(rows[i + 1])
  }

  /** `x` placed before the first row of `s` it is not smaller than. */
  function InsertDesc<T>(x: T, s: seq<T>, rank: T -> int): (r: seq<T>)
    requires SortedDesc(s, rank)
    ensures SortedDesc(r, rank)
    ensures multiset(r) == multiset(s) + multiset{x}
    ensures r != [] && (r[0] == x || (s != [] && r[0] == s[0]))
  {
    if s == [] || rank(x) >= rank(s[0]) then [x] + s
    else
      assert s == [s[0]] + s[1..];
      assert SortedDesc(s[1..], rank) by {
        forall i | 0 <= i < |s[1..]| - 1 ensures rank(s[1..][i]) >= rank(s[1..][i + 1]) {
          assert s[1..][i] == s[i + 1] && s[1..][i + 1] == s[i + 2];
        }
      }
      [s[0]] + InsertDesc(x, s[1..], rank)
  }

  /** `sort(rank, descending=True)`: a reordering of the rows, largest first.
      Rows with equal `rank` may come in any order in the source; this one is
      a particular choice. */
  function SortDesc<T>(rows: seq<T>, rank: T -> int): (r: seq<T>)
    ensures SortedDesc(r, rank)
    ensures multiset(r) == multiset(rows)
    ensures |r| == |rows|
  {
    if rows == [] then []
    else
      assert rows == [rows[0]] + rows[1..];
      InsertDesc(rows[0], SortDesc(rows[1..], rank), rank)
  }

  /** A value occurring at two positions occurs at least twice in the multiset. */
  lemma TwoPositions<T>(b: seq<T>, i: nat, j: nat)
    requires i < j < |b| && b[i] == b[j]
    ensures multiset(b)[b[i]] >= 2
  {
    assert b == b[..j] + b[j..];
    assert b[..j][i] == b[i];
    assert b[j..][0] == b[j];
  }

  /** In a table with unique keys no row occurs twice. */
  lemma {:induction false} UniqueKeysSingle<T, K>(a: seq<T>, key: T -> K, x: T)
    requires UniqueKeys(a, key)
    ensures multiset(a)[x] <= 1
  {
    if a != [] {
      assert a == [a[0]] + a[1..];
      assert UniqueKeys(a[1..], key) by {
        forall i, j | 0 <= i < j < |a[1..]| ensures key(a[1..][i]) != key(a[1..][j]) {
          assert a[1..][i] == a[i + 1] && a[1..][j] == a[j + 1];
        }
      }
      UniqueKeysSingle(a[1..], key, x);
      if a[0] == x {
        forall p | 0 <= p < |a[1..]| ensures a[1..][p] != x {
          assert a[1..][p] == a[p + 1];
          assert key(a[0]) != key(a[p + 1]);
        }
      }
    }
  }

  /** Reordering a table keeps its keys unique. */
  lemma PermutationKeepsUniqueKeys<T, K>(a: seq<T>, b: seq<T>, key: T -> K)
    requires multiset(a) == multiset(b) && UniqueKeys(a, key)
    ensures UniqueKeys(b, key)
  {
    forall i, j | 0 <= i < j < |b| ensures key(b[i]) != key(b[j]) {
      if b[i] == b[j] {
        TwoPositions(b, i, j);
        UniqueKeysSingle(a, key, b[i]);
      } else {
        assert b[i] in multiset(a) && b[j] in multiset(a);
        var p :| 0 <= p < |a| && a[p] == b[i];
        var q :| 0 <= q < |a| && a[q] == b[j];
        assert p != q;
      }
    }
  }

  /** Reordering a table keeps the set of its keys. */
  lemma PermutationKeepsKeys<T, K>(a: seq<T>, b: seq<T>, key: T -> K, k: K)
    requires multiset(a) == multiset(b)
    ensures HasKey(a, key, k) <==> HasKey(b, key, k)
  {
    if HasKey(a, key, k) {
      var p :| 0 <= p < |a| && key(a[p]) == k;
      assert a[p] in multiset(b);
      var q :| 0 <= q < |b| && b[q] == a[p];
    }
    if HasKey(b, key, k) {
      var q :| 0 <= q < |b| && key(b[q]) == k;
      assert b[q] in multiset(a);
      var p :| 0 <= p < |a| && a[p] == b[q];
    }
  }
}
