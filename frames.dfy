/** Whole-table operations that the pipeline applies to its data frames:
    row selection, concatenation, de-duplication on a key column, left
    join, group counts and ordering by count. Everything here is generic in
    the row type; the pipeline modules instantiate it with their rows. */
module Frames {

  datatype Option<+T> = None | Some(value: T)

  /** A data frame as the pipeline builds it. `pd.DataFrame()` has no
      columns at all, which differs from a frame that has columns but no
      rows: selecting or joining on a column of the former raises. */
  datatype Frame<T> = NoColumns | Rows(rows: seq<T>) {
    function Records(): seq<T> {
      if NoColumns? then [] else rows
    }
  }

  /** `pd.concat([a, b])`: the rows of `a` followed by those of `b`; the
      result has columns as soon as one of the two has. */
  function Concat<T>(a: Frame<T>, b: Frame<T>): (c: Frame<T>)
    ensures c.Records() == a.Records() + b.Records()
    ensures c.NoColumns? <==> a.NoColumns? && b.NoColumns?
  {
    if a.NoColumns? && b.NoColumns? then NoColumns else Rows(a.Records() + b.Records())
  }

  /** Boolean-mask selection `df[mask]`: the rows that satisfy `keep`, in order. */
  function Filter<T(!new)>(s: seq<T>, keep: T -> bool): (r: seq<T>)
    ensures |r| <= |s|
    ensures forall x :: x in r ==> x in s && keep(x)
    ensures forall x :: x in s && keep(x) ==> x in r
  {
    if s == [] then []
    else
      var rest := Filter(s[..|s| - 1], keep);
      if keep(s[|s| - 1]) then rest + [s[|s| - 1]] else rest
  }

  /** Selection commutes with concatenation, so it keeps the input order. */
  lemma {:induction false} FilterAppend<T(!new)>(a: seq<T>, b: seq<T>, keep: T -> bool)
    ensures Filter(a + b, keep) == Filter(a, keep) + Filter(b, keep)
  {
    if b == [] {
      assert a + b == a;
    } else {
      var b' := b[..|b| - 1];
      assert (a + b)[..|a + b| - 1] == a + b';
      assert (a + b)[|a + b| - 1] == b[|b| - 1];
      FilterAppend(a, b', keep);
    }
  }

  /** A mask every row passes keeps the frame whole. */
  lemma {:induction false} FilterAll<T(!new)>(s: seq<T>, keep: T -> bool)
    requires forall i :: 0 <= i < |s| ==> keep(s[i])
    ensures Filter(s, keep) == s
  {
    if s != [] {
      FilterAll(s[..|s| - 1], keep);
      assert s == s[..|s| - 1] + [s[|s| - 1]];
    }
  }

  /** A mask no row passes keeps nothing. */
  lemma {:induction false} FilterNone<T(!new)>(s: seq<T>, keep: T -> bool)
    requires forall i :: 0 <= i < |s| ==> !keep(s[i])
    ensures Filter(s, keep) == []
  {
    if s != [] {
      FilterNone(s[..|s| - 1], keep);
    }
  }

  lemma FilterPair<T(!new)>(a: T, b: T, keep: T -> bool)
    ensures Filter([a, b], keep) == (if keep(a) then [a] else []) + (if keep(b) then [b] else [])
  {
    assert [a, b][..1] == [a];
    assert [a][..0] == [];
  }

  lemma AppendAssociative<T>(a: seq<T>, b: seq<T>, c: seq<T>)
    ensures a + (b + c) == a + b + c
  {
  }

  /** Concatenation of a list of frames' rows, in list order. */
  function Flatten<T>(ss: seq<seq<T>>): seq<T>
  {
    if ss == [] then [] else Flatten(ss[..|ss| - 1]) + ss[|ss| - 1]
  }

  function TotalLength<T>(ss: seq<seq<T>>): nat
  {
    if ss == [] then 0 else TotalLength(ss[..|ss| - 1]) + |ss[|ss| - 1]|
  }

  /** A concatenation has as many rows as its parts together. */
  lemma {:induction false} FlattenLength<T>(ss: seq<seq<T>>)
    ensures |Flatten(ss)| == TotalLength(ss)
  {
    if ss != [] {
      FlattenLength(ss[..|ss| - 1]);
    }
  }

  lemma FlattenSnoc<T>(ss: seq<seq<T>>, i: nat)
    requires i < |ss|
    ensures Flatten(ss[..i + 1]) == Flatten(ss[..i]) + ss[i]
  {
    assert ss[..i + 1][..i] == ss[..i];
  }

  /** The values of the key column. */
  ghost function Keys<T, K>(rows: seq<T>, key: T -> K): set<K>
  {
    set x | x in rows :: key(x)
  }

  /** The row of `rows` that comes first among those whose key is `k`. */
  function FirstWithKey<T, K(==)>(rows: seq<T>, key: T -> K, k: K): Option<T>
  {
    if rows == [] then None
    else if key(rows[0]) == k then Some(rows[0])
    else FirstWithKey(rows[1..], key, k)
  }

  /** `drop_duplicates(subset=[key], keep='first')` applied after the keys
      in `seen` have already been taken. */
  function DedupFrom<T, K(==)>(rows: seq<T>, key: T -> K, seen: set<K>): seq<T>
    decreases |rows|
  {
    if rows == [] then []
    else if key(rows[0]) in seen then DedupFrom(rows[1..], key, seen)
    else [rows[0]] + DedupFrom(rows[1..], key, seen + {key(rows[0])})
  }

  /** `drop_duplicates(subset=[key], keep='first')`. */
  function DedupFirst<T, K(==)>(rows: seq<T>, key: T -> K): seq<T>
  {
    DedupFrom(rows, key, {})
  }

  /** What the de-duplication keeps: no key twice, no key already seen,
      every other key of the input, and for each key the first row that
      carries it. */
  lemma {:induction false} DedupFromSpec<T, K>(rows: seq<T>, key: T -> K, seen: set<K>)
    ensures var r := DedupFrom(rows, key, seen);
      && (forall i, j :: 0 <= i < j < |r| ==> key(r[i]) != key(r[j]))
      && (forall i :: 0 <= i < |r| ==> key(r[i]) !in seen)
      && (forall i :: 0 <= i < |r| ==> FirstWithKey(rows, key, key(r[i])) == Some(r[i]))
      && Keys(r, key) == Keys(rows, key) - seen
    decreases |rows|
  {
    if rows != [] {
      var x, tail := rows[0], rows[1..];
      assert rows == [x] + tail;
      assert Keys(rows, key) == {key(x)} + Keys(tail, key);
      if key(x) in seen {
        DedupFromSpec(tail, key, seen);
        var r := DedupFrom(tail, key, seen);
        forall i | 0 <= i < |r|
          ensures FirstWithKey(rows, key, key(r[i])) == Some(r[i])
        {
          assert key(r[i]) != key(x);
        }
      } else {
        var seen' := seen + {key(x)};
        DedupFromSpec(tail, key, seen');
        var rest := DedupFrom(tail, key, seen');
        var r := [x] + rest;
        forall i | 0 <= i < |r|
          ensures FirstWithKey(rows, key, key(r[i])) == Some(r[i])
        {
          if i > 0 {
            assert r[i] == rest[i - 1];
            assert key(r[i]) != key(x);
          }
        }
        assert Keys(r, key) == {key(x)} + Keys(rest, key);
      }
    }
  }

  /** De-duplicating a concatenation: the second part only contributes rows
      whose keys the first part did not have. */
  lemma {:induction false} DedupAppend<T, K>(a: seq<T>, b: seq<T>, key: T -> K, seen: set<K>)
    ensures DedupFrom(a + b, key, seen) == DedupFrom(a, key, seen) + DedupFrom(b, key, seen + Keys(a, key))
    decreases |a|
  {
    if a == [] {
      assert a + b == b;
      assert seen + Keys(a, key) == seen;
    } else {
      var x, a' := a[0], a[1..];
      assert a == [x] + a';
      assert (a + b)[0] == x && (a + b)[1..] == a' + b;
      assert Keys(a, key) == {key(x)} + Keys(a', key);
      if key(x) in seen {
        DedupAppend(a', b, key, seen);
        assert seen + Keys(a', key) == seen + Keys(a, key);
      } else {
        DedupAppend(a', b, key, seen + {key(x)});
        assert seen + {key(x)} + Keys(a', key) == seen + Keys(a, key);
      }
    }
  }

  /** De-duplicating twice is de-duplicating once against both seen sets. */
  lemma {:induction false} DedupTwice<T, K>(a: seq<T>, key: T -> K, s: set<K>, t: set<K>)
    ensures DedupFrom(DedupFrom(a, key, s), key, t) == DedupFrom(a, key, s + t)
    decreases |a|
  {
    if a != [] {
      var x, a' := a[0], a[1..];
      var kx := key(x);
      if kx in s {
        DedupTwice(a', key, s, t);
      } else if kx in t {
        DedupTwice(a', key, s + {kx}, t);
        assert s + {kx} + t == s + t;
      } else {
        var inner := DedupFrom(a', key, s + {kx});
        assert ([x] + inner)[0] == x && ([x] + inner)[1..] == inner;
        DedupTwice(a', key, s + {kx}, t + {kx});
        assert s + {kx} + (t + {kx}) == s + t + {kx};
      }
    }
  }

  /** Re-de-duplicating the concatenation of two de-duplicated tables gives
      the de-duplication of the concatenated inputs: the table built file by
      file is the one built from all files at once, and every key keeps the
      row of the earliest part that has it. */
  lemma DedupAccumulate<T, K>(a: seq<T>, b: seq<T>, key: T -> K)
    ensures DedupFirst(DedupFirst(a, key) + DedupFirst(b, key), key) == DedupFirst(a + b, key)
  {
    var da, db := DedupFirst(a, key), DedupFirst(b, key);
    DedupAppend(da, db, key, {});
    DedupTwice(a, key, {}, {});
    var none: set<K> := {};
    assert none + none == none;
    DedupFromSpec(a, key, {});
    assert {} + Keys(da, key) == Keys(a, key);
    DedupTwice(b, key, {}, Keys(a, key));
    assert {} + Keys(a, key) == Keys(a, key);
    DedupAppend(a, b, key, {});
  }

  /** Adding a later part never changes a row already kept: the earlier
      table is a prefix of the new one, and every row added carries a key
      the earlier part did not have. */
  lemma EarlierRowsKept<T, K>(a: seq<T>, b: seq<T>, key: T -> K)
    ensures var kept, grown := DedupFirst(a, key), DedupFirst(a + b, key);
      && |kept| <= |grown|
      && grown[..|kept|] == kept
      && forall i :: |kept| <= i < |grown| ==> key(grown[i]) !in Keys(a, key)
  {
    DedupAppend(a, b, key, {});
    assert {} + Keys(a, key) == Keys(a, key);
    var kept, added := DedupFirst(a, key), DedupFrom(b, key, Keys(a, key));
    DedupFromSpec(b, key, Keys(a, key));
    var grown := kept + added;
    forall i | |kept| <= i < |grown|
      ensures key(grown[i]) !in Keys(a, key)
    {
      assert grown[i] == added[i - |kept|];
    }
  }

  /** The right rows whose key equals the key of `l`, in right order. */
  function Matching<L, R(!new), K(==)>(l: L, right: seq<R>, lk: L -> K, rk: R -> K): (m: seq<R>)
    ensures forall r :: r in m ==> r in right && rk(r) == lk(l)
    ensures forall r :: r in right && rk(r) == lk(l) ==> r in m
  {
    if right == [] then []
    else
      var last := right[|right| - 1];
      Matching(l, right[..|right| - 1], lk, rk) + (if rk(last) == lk(l) then [last] else [])
  }

  /** `left.merge(right, how='left', left_on=lk, right_on=rk)` for one left
      row: one output row per matching right row, in right order, or a
      single row with the right side missing when nothing matches. */
  function JoinRow<L, R(!new), K(==)>(l: L, right: seq<R>, lk: L -> K, rk: R -> K): seq<(L, Option<R>)>
  {
    var m := Matching(l, right, lk, rk);
    if m == [] then [(l, None)] else seq(|m|, i requires 0 <= i < |m| => (l, Some(m[i])))
  }

  /** `left.merge(right, how='left', left_on=lk, right_on=rk)`. */
  function LeftJoin<L, R(!new), K(==)>(left: seq<L>, right: seq<R>, lk: L -> K, rk: R -> K): seq<(L, Option<R>)>
  {
    if left == [] then []
    else LeftJoin(left[..|left| - 1], right, lk, rk) + JoinRow(left[|left| - 1], right, lk, rk)
  }

  /** The matches in a concatenation of right tables are the matches in
      each, in order: duplicated right rows are matched as often as they occur. */
  lemma {:induction false} MatchingAppend<L, R(!new), K>(l: L, a: seq<R>, b: seq<R>, lk: L -> K, rk: R -> K)
    ensures Matching(l, a + b, lk, rk) == Matching(l, a, lk, rk) + Matching(l, b, lk, rk)
  {
    if b == [] {
      assert a + b == a;
    } else {
      var b', last := b[..|b| - 1], b[|b| - 1];
      var hit := if rk(last) == lk(l) then [last] else [];
      assert (a + b)[..|a + b| - 1] == a + b';
      assert (a + b)[|a + b| - 1] == last;
      assert Matching(l, a + b, lk, rk) == Matching(l, a + b', lk, rk) + hit;
      assert Matching(l, b, lk, rk) == Matching(l, b', lk, rk) + hit;
      MatchingAppend(l, a, b', lk, rk);
      AppendAssociative(Matching(l, a, lk, rk), Matching(l, b', lk, rk), hit);
    }
  }

  /** One left row yields exactly one output row per matching right row,
      in right order, or a single row with the right side missing when
      nothing matches; every output row carries that left row. */
  lemma JoinRowSpec<L, R(!new), K>(l: L, right: seq<R>, lk: L -> K, rk: R -> K)
    ensures var j, m := JoinRow(l, right, lk, rk), Matching(l, right, lk, rk);
      && (m == [] ==> j == [(l, None)])
      && (m != [] ==> |j| == |m| && forall i :: 0 <= i < |m| ==> j[i] == (l, Some(m[i])))
      && (forall p :: p in j ==> p.0 == l)
      && (forall p :: p in j && p.1.Some? ==> p.1.value in right && rk(p.1.value) == lk(l))
      && (forall p :: p in j && p.1.None? ==> forall r :: r in right ==> rk(r) != lk(l))
      && (forall r :: r in right && rk(r) == lk(l) ==> (l, Some(r)) in j)
  {
    var m := Matching(l, right, lk, rk);
    if m != [] {
      var j := JoinRow(l, right, lk, rk);
      forall r | r in right && rk(r) == lk(l)
        ensures (l, Some(r)) in j
      {
        assert r in m;
        var i :| 0 <= i < |m| && m[i] == r;
        assert j[i] == (l, Some(r));
      }
    }
  }

  /** The merge of a concatenation of left tables is the concatenation of
      their merges: the output follows left order. */
  lemma {:induction false} LeftJoinAppend<L, R(!new), K>(a: seq<L>, b: seq<L>, right: seq<R>, lk: L -> K, rk: R -> K)
    ensures LeftJoin(a + b, right, lk, rk) == LeftJoin(a, right, lk, rk) + LeftJoin(b, right, lk, rk)
  {
    if b == [] {
      assert a + b == a;
    } else {
      var b' := b[..|b| - 1];
      assert (a + b)[..|a + b| - 1] == a + b';
      var last := JoinRow(b[|b| - 1], right, lk, rk);
      assert (a + b)[|a + b| - 1] == b[|b| - 1];
      assert LeftJoin(a + b, right, lk, rk) == LeftJoin(a + b', right, lk, rk) + last;
      assert LeftJoin(b, right, lk, rk) == LeftJoin(b', right, lk, rk) + last;
      LeftJoinAppend(a, b', right, lk, rk);
      AppendAssociative(LeftJoin(a, right, lk, rk), LeftJoin(b', right, lk, rk), last);
    }
  }

  /** The merge is, left row by left row in left order, each row's joined
      rows. */
  lemma {:induction false} LeftJoinByRow<L, R(!new), K>(left: seq<L>, right: seq<R>, lk: L -> K, rk: R -> K)
    ensures LeftJoin(left, right, lk, rk) == Flatten(seq(|left|, i requires 0 <= i < |left| => JoinRow(left[i], right, lk, rk)))
  {
    if left != [] {
      var n := |left| - 1;
      LeftJoinByRow(left[..n], right, lk, rk);
      var rows := seq(|left|, i requires 0 <= i < |left| => JoinRow(left[i], right, lk, rk));
      var init := seq(n, i requires 0 <= i < n => JoinRow(left[..n][i], right, lk, rk));
      assert rows[..n] == init;
    }
  }

  /** The left join keeps every left row: each left row appears with every
      right row whose key matches it, or with nothing when none does; and
      every output row is one of those. */
  lemma {:induction false} LeftJoinSpec<L, R(!new), K>(left: seq<L>, right: seq<R>, lk: L -> K, rk: R -> K)
    ensures var j := LeftJoin(left, right, lk, rk);
      && (forall p :: p in j ==> p.0 in left)
      && (forall p :: p in j && p.1.Some? ==> p.1.value in right && rk(p.1.value) == lk(p.0))
      && (forall p :: p in j && p.1.None? ==> forall r :: r in right ==> rk(r) != lk(p.0))
      && (forall l, r :: l in left && r in right && rk(r) == lk(l) ==> (l, Some(r)) in j)
      && (forall l :: l in left && (forall r :: r in right ==> rk(r) != lk(l)) ==> (l, None) in j)
  {
    if left != [] {
      var init, l := left[..|left| - 1], left[|left| - 1];
      assert left == init + [l];
      LeftJoinSpec(init, right, lk, rk);
      JoinRowSpec(l, right, lk, rk);
      var m := Matching(l, right, lk, rk);
      if m != [] {
        var r0 := m[0];
        assert r0 in right && rk(r0) == lk(l);
      }
    }
  }

  ghost predicate UniqueKeys<R, K>(right: seq<R>, rk: R -> K)
  {
    forall i, j :: 0 <= i < j < |right| ==> rk(right[i]) != rk(right[j])
  }

  lemma {:induction false} NoMatching<L, R(!new), K>(l: L, right: seq<R>, lk: L -> K, rk: R -> K)
    requires forall r :: r in right ==> rk(r) != lk(l)
    ensures Matching(l, right, lk, rk) == []
  {
    if right != [] {
      NoMatching(l, right[..|right| - 1], lk, rk);
    }
  }

  /** A table with at most one row per key matches any left row at most once. */
  lemma {:induction false} MatchingAtMostOne<L, R(!new), K>(l: L, right: seq<R>, lk: L -> K, rk: R -> K)
    requires UniqueKeys(right, rk)
    ensures |Matching(l, right, lk, rk)| <= 1
  {
    if right != [] {
      var init, last := right[..|right| - 1], right[|right| - 1];
      if rk(last) == lk(l) {
        forall r | r in init
          ensures rk(r) != lk(l)
        {
          var p :| 0 <= p < |init| && init[p] == r;
          assert right[p] == r;
        }
        NoMatching(l, init, lk, rk);
      } else {
        assert UniqueKeys(init, rk) by {
          forall i, j | 0 <= i < j < |init| ensures rk(init[i]) != rk(init[j]) {
            assert init[i] == right[i] && init[j] == right[j];
          }
        }
        MatchingAtMostOne(l, init, lk, rk);
      }
    }
  }

  /** When the right side has at most one row per key, the join has
      exactly one row per left row, in left order. */
  lemma {:induction false} LeftJoinUniqueRight<L, R(!new), K>(left: seq<L>, right: seq<R>, lk: L -> K, rk: R -> K)
    requires UniqueKeys(right, rk)
    ensures var j := LeftJoin(left, right, lk, rk);
      && |j| == |left|
      && forall i :: 0 <= i < |left| ==> j[i].0 == left[i]
  {
    if left != [] {
      var init, l := left[..|left| - 1], left[|left| - 1];
      LeftJoinUniqueRight(init, right, lk, rk);
      MatchingAtMostOne(l, right, lk, rk);
      var j := LeftJoin(left, right, lk, rk);
      var j0 := LeftJoin(init, right, lk, rk);
      assert |JoinRow(l, right, lk, rk)| == 1;
      forall i | 0 <= i < |left|
        ensures j[i].0 == left[i]
      {
        if i < |init| {
          assert j[i] == j0[i];
        }
      }
    }
  }

  /** Number of occurrences of `k`. */
  function Count<K(==,!new)>(keys: seq<K>, k: K): (n: nat)
    ensures n <= |keys|
    ensures n > 0 <==> k in keys
  {
    if keys == [] then 0 else (if keys[0] == k then 1 else 0) + Count(keys[1..], k)
  }

  /** The keys other than `k`, in order. */
  function Without<K(==,!new)>(keys: seq<K>, k: K): (r: seq<K>)
    ensures |r| + Count(keys, k) == |keys|
    ensures forall x :: x in r ==> x in keys && x != k
    ensures forall x :: x in keys && x != k ==> x in r
    ensures forall x :: x != k ==> Count(r, x) == Count(keys, x)
  {
    if keys == [] then []
    else if keys[0] == k then Without(keys[1..], k)
    else
      var rest := Without(keys[1..], k);
      assert ([keys[0]] + rest)[1..] == rest;
      [keys[0]] + rest
  }

  function SumCounts<K>(groups: seq<(K, nat)>): nat
  {
    if groups == [] then 0 else groups[0].1 + SumCounts(groups[1..])
  }

  /** `groupby(key).count()`: one (key, count) pair per distinct key. */
  function GroupCount<K(==,!new)>(keys: seq<K>): seq<(K, nat)>
    decreases |keys|
  {
    if keys == [] then []
    else [(keys[0], Count(keys, keys[0]))] + GroupCount(Without(keys, keys[0]))
  }

  ghost predicate DistinctKeys<K>(groups: seq<(K, nat)>)
  {
    forall i, j :: 0 <= i < j < |groups| ==> groups[i].0 != groups[j].0
  }

  /** The group count has one pair per distinct key, no key twice, each
      pair holding its key's number of occurrences, and the counts add up
      to the number of keys. */
  lemma {:induction false} GroupCountSpec<K(!new)>(keys: seq<K>)
    ensures var g := GroupCount(keys);
      && DistinctKeys(g)
      && (forall p :: p in g ==> p.0 in keys && p.1 == Count(keys, p.0) && p.1 > 0)
      && (forall k :: k in keys ==> exists p :: p in g && p.0 == k)
      && SumCounts(g) == |keys|
    decreases |keys|
  {
    if keys != [] {
      var k := keys[0];
      var w := Without(keys, k);
      GroupCountSpec(w);
      var rest := GroupCount(w);
      var g := [(k, Count(keys, k))] + rest;
      assert g[1..] == rest;
      forall k' | k' in keys
        ensures exists p :: p in g && p.0 == k'
      {
        if k' == k {
          assert g[0] in g;
        } else {
          assert k' in w;
          var p :| p in rest && p.0 == k';
          assert p in g;
        }
      }
      forall i, j | 0 <= i < j < |g|
        ensures g[i].0 != g[j].0
      {
        if i == 0 {
          assert g[j] in rest;
        } else {
          assert g[i] == rest[i - 1] && g[j] == rest[j - 1];
        }
      }
    }
  }

  predicate DescendingByCount<K>(s: seq<(K, nat)>)
  {
    forall i, j :: 0 <= i < j < |s| ==> s[i].1 >= s[j].1
  }

  function InsertByCount<K>(g: (K, nat), s: seq<(K, nat)>): seq<(K, nat)>
  {
    if s == [] || s[0].1 <= g.1 then [g] + s else [s[0]] + InsertByCount(g, s[1..])
  }

  /** `sort_values(['count'], ascending=False)`. The order among equal
      counts is one admissible choice; nothing below depends on it. */
  function SortByCount<K>(s: seq<(K, nat)>): seq<(K, nat)>
  {
    if s == [] then [] else InsertByCount(s[0], SortByCount(s[1..]))
  }

  lemma {:induction false} InsertMembers<K>(g: (K, nat), s: seq<(K, nat)>)
    ensures forall x :: x in InsertByCount(g, s) ==> x == g || x in s
    ensures forall x :: x in s ==> x in InsertByCount(g, s)
    ensures g in InsertByCount(g, s)
  {
    if s != [] && s[0].1 > g.1 {
      InsertMembers(g, s[1..]);
      assert s == [s[0]] + s[1..];
    }
  }

  lemma {:induction false} InsertCounts<K>(g: (K, nat), s: seq<(K, nat)>)
    ensures multiset(InsertByCount(g, s)) == multiset(s) + multiset{g}
    ensures SumCounts(InsertByCount(g, s)) == g.1 + SumCounts(s)
  {
    if s != [] && s[0].1 > g.1 {
      assert s == [s[0]] + s[1..];
      InsertCounts(g, s[1..]);
      var ins := InsertByCount(g, s[1..]);
      assert ([s[0]] + ins)[1..] == ins;
    } else {
      assert ([g] + s)[1..] == s;
    }
  }

  lemma ConsDescending<K>(h: (K, nat), t: seq<(K, nat)>)
    requires DescendingByCount(t)
    requires forall x :: x in t ==> x.1 <= h.1
    ensures DescendingByCount([h] + t)
  {
    var r := [h] + t;
    forall i, j | 0 <= i < j < |r|
      ensures r[i].1 >= r[j].1
    {
      assert r[j] == t[j - 1];
      if i > 0 {
        assert r[i] == t[i - 1];
      } else {
        assert t[j - 1] in t;
      }
    }
  }

  lemma HeadIsLargest<K>(s: seq<(K, nat)>)
    requires DescendingByCount(s) && s != []
    ensures forall x :: x in s ==> x.1 <= s[0].1
  {
    forall x | x in s ensures x.1 <= s[0].1 {
      var k :| 0 <= k < |s| && s[k] == x;
    }
  }

  lemma {:induction false} InsertKeepsOrder<K>(g: (K, nat), s: seq<(K, nat)>)
    requires DescendingByCount(s)
    ensures DescendingByCount(InsertByCount(g, s))
  {
    if s != [] && s[0].1 > g.1 {
      var tail := s[1..];
      assert DescendingByCount(tail) by {
        forall i, j | 0 <= i < j < |tail| ensures tail[i].1 >= tail[j].1 {
          assert tail[i] == s[i + 1] && tail[j] == s[j + 1];
        }
      }
      InsertKeepsOrder(g, tail);
      InsertMembers(g, tail);
      HeadIsLargest(s);
      assert forall x :: x in tail ==> x in s;
      ConsDescending(s[0], InsertByCount(g, tail));
    } else if s != [] {
      HeadIsLargest(s);
      ConsDescending(g, s);
    } else {
      ConsDescending(g, s);
    }
  }

  lemma {:induction false} InsertKeepsDistinct<K>(g: (K, nat), s: seq<(K, nat)>)
    requires DistinctKeys(s)
    requires forall x :: x in s ==> x.0 != g.0
    ensures DistinctKeys(InsertByCount(g, s))
  {
    if s != [] && s[0].1 > g.1 {
      var tail := s[1..];
      assert DistinctKeys(tail) by {
        forall i, j | 0 <= i < j < |tail| ensures tail[i].0 != tail[j].0 {
          assert tail[i] == s[i + 1] && tail[j] == s[j + 1];
        }
      }
      InsertKeepsDistinct(g, tail);
      InsertMembers(g, tail);
      var ins := InsertByCount(g, tail);
      var r := [s[0]] + ins;
      forall i, j | 0 <= i < j < |r|
        ensures r[i].0 != r[j].0
      {
        if i == 0 {
          assert r[j] == ins[j - 1];
          assert r[j] == g || r[j] in tail;
          if r[j] != g {
            var k :| 0 <= k < |tail| && tail[k] == r[j];
            assert s[k + 1] == r[j];
          }
        } else {
          assert r[i] == ins[i - 1] && r[j] == ins[j - 1];
        }
      }
    } else {
      var r := [g] + s;
      forall i, j | 0 <= i < j < |r|
        ensures r[i].0 != r[j].0
      {
        if i == 0 {
          assert r[j] in s;
        } else {
          assert r[i] == s[i - 1] && r[j] == s[j - 1];
        }
      }
    }
  }

  lemma {:induction false} SortByCountOrder<K>(s: seq<(K, nat)>)
    ensures DescendingByCount(SortByCount(s))
    ensures forall x :: x in SortByCount(s) ==> x in s
    ensures forall x :: x in s ==> x in SortByCount(s)
  {
    if s != [] {
      var tail := s[1..];
      assert s == [s[0]] + tail;
      SortByCountOrder(tail);
      InsertMembers(s[0], SortByCount(tail));
      InsertKeepsOrder(s[0], SortByCount(tail));
    }
  }

  lemma {:induction false} SortByCountCounts<K>(s: seq<(K, nat)>)
    ensures multiset(SortByCount(s)) == multiset(s)
    ensures SumCounts(SortByCount(s)) == SumCounts(s)
  {
    if s != [] {
      var tail := s[1..];
      assert s == [s[0]] + tail;
      SortByCountCounts(tail);
      InsertCounts(s[0], SortByCount(tail));
    }
  }

  lemma {:induction false} SortByCountDistinct<K>(s: seq<(K, nat)>)
    requires DistinctKeys(s)
    ensures DistinctKeys(SortByCount(s))
  {
    if s != [] {
      var tail := s[1..];
      assert DistinctKeys(tail) by {
        forall i, j | 0 <= i < j < |tail| ensures tail[i].0 != tail[j].0 {
          assert tail[i] == s[i + 1] && tail[j] == s[j + 1];
        }
      }
      SortByCountDistinct(tail);
      var st := SortByCount(tail);
      SortByCountOrder(tail);
      assert forall x :: x in st ==> x.0 != s[0].0 by {
        forall x | x in st ensures x.0 != s[0].0 {
          var k :| 0 <= k < |tail| && tail[k] == x;
          assert s[k + 1] == x;
        }
      }
      InsertKeepsDistinct(s[0], st);
    }
  }

  /** Ordering by count is a permutation of its input, descending by count,
      and keeps the total of the counts and the distinctness of the keys. */
  lemma SortByCountSpec<K>(s: seq<(K, nat)>)
    ensures var r := SortByCount(s);
      && DescendingByCount(r)
      && multiset(r) == multiset(s)
      && SumCounts(r) == SumCounts(s)
      && (forall x :: x in r ==> x in s)
      && (forall x :: x in s ==> x in r)
      && (DistinctKeys(s) ==> DistinctKeys(r))
  {
    SortByCountOrder(s);
    SortByCountCounts(s);
    if DistinctKeys(s) {
      SortByCountDistinct(s);
    }
  }

  /** `values[:n]`: the first `n` rows, or all of them when there are fewer. */
  function Top<T>(s: seq<T>, n: nat): (r: seq<T>)
    ensures |r| <= n && |r| <= |s|
    ensures |r| == n || r == s
    ensures forall i :: 0 <= i < |r| ==> r[i] == s[i]
  {
    if |s| <= n then s else s[..n]
  }
}
